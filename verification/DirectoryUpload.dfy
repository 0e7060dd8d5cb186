/**
 * The SDK's directory upload, whole: the batches and the cursor walk of module DirectoryClient, the
 * manifest hash, one upload request and one reported result per file, and the final complete. The job
 * and the files are two services with states of their own.
 */
module DirectoryUpload {
  import opened Basics
  import opened Sorting
  import opened Json
  import opened Manifest
  import opened Directory
  import opened DirectoryRuns
  import opened DirectoryPages
  import opened DirectoryService
  import opened DirectoryClient
  import Paths
  import Policy
  import S = Server
  import V = Services
  import U = UploadDecisions
  import FD = FileDecisions

  // ------------------------------------------------------------------ sending the files

  /** Where a directory goes: its owner, bucket and prefix, and the lifecycle of its files. */
  datatype Target = Target(tenant: string, bucket: string, prefix: string, lifecycle: Option<Policy.Requested>)

  /** A file's bytes when it is read, the id the server draws for it, and the instant its request arrives. */
  datatype Reading = Reading(content: bytes, id: nat, now: int)

  datatype Sending = Sending(put: S.PutRequest, id: nat, now: int)

  /** The one request that uploads a file of the directory. */
  function FilePut(target: Target, path: string, content: bytes): S.PutRequest {
    S.PutRequest(target.tenant, target.bucket, Paths.StripSlashes(target.prefix + "/" + path), |content|, content, None,
                 target.lifecycle)
  }

  function Sendings(target: Target, files: seq<Walked>, readings: seq<Reading>): (ss: seq<Sending>)
    requires |readings| == |files|
    ensures |ss| == |files|
    ensures forall i :: 0 <= i < |files| ==>
      ss[i] == Sending(FilePut(target, files[i].path, readings[i].content), readings[i].id, readings[i].now)
  {
    seq(|files|, i requires 0 <= i < |files| =>
      Sending(FilePut(target, files[i].path, readings[i].content), readings[i].id, readings[i].now))
  }

  /** The ids the server draws are new and distinct. */
  ghost predicate NewIds(w: S.World, readings: seq<Reading>) {
    && (forall i :: 0 <= i < |readings| ==> readings[i].id !in w.db.files)
    && (forall i, k :: 0 <= i < k < |readings| ==> readings[i].id != readings[k].id)
  }

  ghost function PutOne(cfg: S.Settings, w: S.World, s: Sending): (S.World, Result<nat, S.Error>) {
    S.PutFile(cfg, w, s.id, s.put, s.now, S.NoFault)
  }

  /** The world after the files were sent one after another. */
  ghost function Sent(cfg: S.Settings, w: S.World, ss: seq<Sending>): S.World {
    if ss == [] then w else PutOne(cfg, Sent(cfg, w, ss[..|ss| - 1]), ss[|ss| - 1]).0
  }

  /** The file id of each file the server took, in the same order. */
  ghost function Outcomes(cfg: S.Settings, w: S.World, ss: seq<Sending>): (r: seq<Option<nat>>)
    ensures |r| == |ss|
  {
    if ss == [] then []
    else
      var answer := PutOne(cfg, Sent(cfg, w, ss[..|ss| - 1]), ss[|ss| - 1]).1;
      Outcomes(cfg, w, ss[..|ss| - 1]) + [if answer.Ok? then Some(answer.value) else None]
  }

  lemma {:induction false} OutcomeAt(cfg: S.Settings, w: S.World, ss: seq<Sending>, m: nat)
    requires m < |ss|
    ensures var (w', r) := PutOne(cfg, Sent(cfg, w, ss[..m]), ss[m]);
      Sent(cfg, w, ss[..m + 1]) == w' && Outcomes(cfg, w, ss)[m] == if r.Ok? then Some(r.value) else None
  {
    var n := |ss| - 1;
    if m < n {
      OutcomeAt(cfg, w, ss[..n], m);
      FrontPrefixes(ss, m);
    } else {
      assert ss[..m + 1] == ss;
    }
  }

  lemma {:induction false} FrontPrefixes(ss: seq<Sending>, m: nat)
    requires m < |ss| - 1
    ensures var front := ss[..|ss| - 1]; front[..m] == ss[..m] && front[..m + 1] == ss[..m + 1] && front[m] == ss[m]
  {}

  /** What one upload adds to the file rows. */
  lemma PutAdds(cfg: S.Settings, w: S.World, s: Sending)
    ensures PutOne(cfg, w, s).0.db.files.Keys <= w.db.files.Keys + {s.id}
  {}

  lemma {:induction false} SentIds(cfg: S.Settings, w: S.World, ss: seq<Sending>, f: nat)
    requires f in Sent(cfg, w, ss).db.files && f !in w.db.files
    ensures exists i :: 0 <= i < |ss| && ss[i].id == f
  {
    var n := |ss| - 1;
    PutAdds(cfg, Sent(cfg, w, ss[..n]), ss[n]);
    if f != ss[n].id {
      SentIds(cfg, w, ss[..n], f);
      var i :| 0 <= i < |ss[..n]| && ss[..n][i].id == f;
      assert ss[i].id == f;
    }
  }

  ghost predicate NewSendings(w: S.World, ss: seq<Sending>) {
    && (forall i :: 0 <= i < |ss| ==> ss[i].id !in w.db.files)
    && (forall i, k :: 0 <= i < k < |ss| ==> ss[i].id != ss[k].id)
  }

  lemma StillNew(cfg: S.Settings, w: S.World, ss: seq<Sending>, m: nat)
    requires NewSendings(w, ss) && m < |ss|
    ensures ss[m].id !in Sent(cfg, w, ss[..m]).db.files
  {
    if ss[m].id in Sent(cfg, w, ss[..m]).db.files { SentIds(cfg, w, ss[..m], ss[m].id); }
  }

  // ------------------------------------------------------------------ what is stored in the end

  /** The key a file goes to. */
  function KeyOf(cfg: S.Settings, put: S.PutRequest): S.Key {
    match Paths.ServerNormalize(cfg.nfc, put.objectKey, Paths.DEFAULT_DEPTH, Paths.DEFAULT_BYTES)
    case Ok(name) => S.Key(put.bucket, name)
    case Err(_) => S.Key(put.bucket, "")
  }

  function StoredAt(w: S.World, k: S.Key): Option<bytes> {
    if k in w.disk.objects then Some(w.disk.objects[k]) else None
  }

  /** The file has its row: its owner, key, size and hash, and its lifecycle as adjudicated when it arrived. */
  ghost predicate Recorded(cfg: S.Settings, w: S.World, s: Sending) {
    && s.id in w.db.files && w.db.files[s.id].status == S.ActiveFile
    && w.db.files[s.id].tenant == s.put.tenant && w.db.files[s.id].key == KeyOf(cfg, s.put)
    && w.db.files[s.id].size == s.put.declared && w.db.files[s.id].etag == cfg.sha(s.put.body)
    && HasLifecycle(cfg, w.db.files[s.id], s.put.lifecycle, s.now)
  }

  /** The row came into being at `now` with the lifecycle asked for. */
  predicate HasLifecycle(cfg: S.Settings, row: S.FileRow, lifecycle: Option<Policy.Requested>, now: int) {
    && (cfg.lifecycleEnabled ==> Policy.Compute(cfg.policy, lifecycle, now).Ok?)
    && U.Newborn(row, now) && row.clientSource == U.DocumentGiven(lifecycle)
    && U.CarriesLifecycle(cfg, row,
                          if cfg.lifecycleEnabled then Some(Policy.Compute(cfg.policy, lifecycle, now).value) else None)
  }

  /** It has its row, and its bytes unless they were lost. */
  ghost predicate Standing(cfg: S.Settings, w: S.World, s: Sending, lost: bool) {
    Recorded(cfg, w, s) && StoredAt(w, KeyOf(cfg, s.put)) == if lost then None else Some(s.put.body)
  }

  /** Uploading `s` goes through a temporary file that has the key of `t`. */
  predicate Overruns(cfg: S.Settings, s: Sending, t: Sending) { S.TempKey(KeyOf(cfg, s.put)) == KeyOf(cfg, t.put) }

  /** A later file of the list is written through a temporary file that has this one's key. */
  ghost predicate Lost(cfg: S.Settings, ss: seq<Sending>, i: nat) {
    i < |ss| && exists k :: i < k < |ss| && Overruns(cfg, ss[k], ss[i])
  }

  lemma PutOk(cfg: S.Settings, w: S.World, s: Sending)
    requires s.id !in w.db.files && PutOne(cfg, w, s).1.Ok? && s.put.checksum.None?
    ensures var (w', key) := (PutOne(cfg, w, s).0, KeyOf(cfg, s.put));
      && Paths.ServerNormalize(cfg.nfc, s.put.objectKey, Paths.DEFAULT_DEPTH, Paths.DEFAULT_BYTES).Ok?
      && !S.KeyTaken(w.db, s.put.tenant, key) && Recorded(cfg, w', s)
      && w'.db.files == w.db.files[s.id := w'.db.files[s.id]]
      && w'.disk.objects == S.Replace(w.disk.objects, key, s.put.body)
  {
    FD.PutRowExact(cfg, w, s.id, s.put, s.now, S.NoFault);
  }

  lemma JustStored(cfg: S.Settings, w: S.World, s: Sending)
    requires s.id !in w.db.files && PutOne(cfg, w, s).1.Ok? && s.put.checksum.None?
    ensures Standing(cfg, PutOne(cfg, w, s).0, s, false)
  {
    PutOk(cfg, w, s);
  }

  /** What another upload of the same owner leaves of a file. */
  lemma StillStanding(cfg: S.Settings, w: S.World, s: Sending, t: Sending, lost: bool)
    requires Standing(cfg, w, s, lost) && PutOne(cfg, w, t).1.Ok? && t.put.checksum.None?
    requires t.id != s.id && t.id !in w.db.files && t.put.tenant == s.put.tenant
    ensures Standing(cfg, PutOne(cfg, w, t).0, s, lost || Overruns(cfg, t, s))
  {
    PutOk(cfg, w, t);
    assert KeyOf(cfg, t.put) != KeyOf(cfg, s.put);
  }

  ghost predicate AllTaken(uploads: seq<Option<nat>>) { forall i :: 0 <= i < |uploads| ==> uploads[i].Some? }

  /** Uploads of one owner, without checksums. */
  ghost predicate OneOwner(ss: seq<Sending>, tenant: string) {
    forall i :: 0 <= i < |ss| ==> ss[i].put.tenant == tenant && ss[i].put.checksum.None?
  }

  lemma FrontTaken(cfg: S.Settings, w: S.World, ss: seq<Sending>)
    requires ss != [] && AllTaken(Outcomes(cfg, w, ss))
    ensures AllTaken(Outcomes(cfg, w, ss[..|ss| - 1])) && PutOne(cfg, Sent(cfg, w, ss[..|ss| - 1]), ss[|ss| - 1]).1.Ok?
  {
    var front := Outcomes(cfg, w, ss[..|ss| - 1]);
    assert forall i :: 0 <= i < |front| ==> front[i] == Outcomes(cfg, w, ss)[i];
    assert Outcomes(cfg, w, ss)[|ss| - 1].Some?;
  }

  lemma {:induction false} LostInFront(cfg: S.Settings, front: seq<Sending>, last: Sending, i: nat)
    requires i < |front|
    ensures Lost(cfg, front + [last], i) <==> Lost(cfg, front, i) || Overruns(cfg, last, front[i])
  {
    var ss := front + [last];
    if Lost(cfg, ss, i) {
      var k :| i < k < |ss| && Overruns(cfg, ss[k], ss[i]);
      assert if k < |front| then ss[k] == front[k] else ss[k] == last;
    }
    if Lost(cfg, front, i) {
      var k :| i < k < |front| && Overruns(cfg, front[k], front[i]);
      assert ss[k] == front[k];
    }
    assert ss[|front|] == last;
  }

  /** The file sent last has its row and its bytes. */
  lemma LastStanding(cfg: S.Settings, w: S.World, ss: seq<Sending>)
    requires ss != [] && NewSendings(w, ss) && AllTaken(Outcomes(cfg, w, ss)) && ss[|ss| - 1].put.checksum.None?
    ensures Standing(cfg, Sent(cfg, w, ss), ss[|ss| - 1], Lost(cfg, ss, |ss| - 1))
  {
    FrontTaken(cfg, w, ss);
    StillNew(cfg, w, ss, |ss| - 1);
    JustStored(cfg, Sent(cfg, w, ss[..|ss| - 1]), ss[|ss| - 1]);
    assert !Lost(cfg, ss, |ss| - 1);
  }

  /** What one more upload leaves of the files before it. */
  lemma StandingPush(cfg: S.Settings, w: S.World, front: seq<Sending>, last: Sending, i: nat)
    requires i < |front| && Standing(cfg, w, front[i], Lost(cfg, front, i))
    requires PutOne(cfg, w, last).1.Ok? && last.put.checksum.None? && last.id !in w.db.files
    requires last.id != front[i].id && last.put.tenant == front[i].put.tenant
    ensures Standing(cfg, PutOne(cfg, w, last).0, front[i], Lost(cfg, front + [last], i))
  {
    StillStanding(cfg, w, front[i], last, Lost(cfg, front, i));
    LostInFront(cfg, front, last, i);
  }

  lemma {:induction false} SentLast(cfg: S.Settings, w: S.World, ss: seq<Sending>)
    requires ss != []
    ensures ss[..|ss| - 1] + [ss[|ss| - 1]] == ss
    ensures Sent(cfg, w, ss) == PutOne(cfg, Sent(cfg, w, ss[..|ss| - 1]), ss[|ss| - 1]).0
  {}

  /**
   * When the server took every file, each has its row in the end; and its bytes, unless a later file was
   * written through a temporary file of that name.
   */
  lemma {:induction false} FilesStanding(cfg: S.Settings, w: S.World, ss: seq<Sending>, tenant: string, i: nat)
    requires NewSendings(w, ss) && AllTaken(Outcomes(cfg, w, ss)) && OneOwner(ss, tenant) && i < |ss|
    ensures Standing(cfg, Sent(cfg, w, ss), ss[i], Lost(cfg, ss, i))
  {
    var n := |ss| - 1;
    if i == n {
      LastStanding(cfg, w, ss);
    } else {
      FrontTaken(cfg, w, ss);
      StillNew(cfg, w, ss, n);
      FrontSendings(w, ss, tenant);
      FilesStanding(cfg, w, ss[..n], tenant, i);
      StandingPush(cfg, Sent(cfg, w, ss[..n]), ss[..n], ss[n], i);
      SentLast(cfg, w, ss);
    }
  }

  lemma {:induction false} FrontSendings(w: S.World, ss: seq<Sending>, tenant: string)
    requires ss != [] && NewSendings(w, ss) && OneOwner(ss, tenant)
    ensures NewSendings(w, ss[..|ss| - 1]) && OneOwner(ss[..|ss| - 1], tenant)
    ensures forall i :: 0 <= i < |ss| - 1 ==> ss[..|ss| - 1][i] == ss[i] && ss[i].id != ss[|ss| - 1].id
  {}

  /** The paths of the walk are in normal form and the prefix is acceptable. */
  ghost predicate NormalNames(nfc: string -> string, prefix: string, files: seq<Walked>) {
    && Paths.NfcLike(nfc) && nfc("") == ""
    && (Paths.StripSlashes(prefix) == ""
        || Paths.ServerNormalize(nfc, Paths.StripSlashes(prefix), Paths.DEFAULT_DEPTH, Paths.DEFAULT_BYTES).Ok?)
    && forall i :: 0 <= i < |files| ==> NormalName(nfc, files[i].path)
  }

  ghost predicate NormalName(nfc: string -> string, path: string) {
    Paths.ServerNormalize(nfc, path, Paths.DEFAULT_DEPTH, Paths.DEFAULT_BYTES) == Ok(path)
  }

  /** The key of a file that the server took. */
  lemma KeyTakenFor(cfg: S.Settings, w: S.World, target: Target, files: seq<Walked>, readings: seq<Reading>, i: nat)
    requires NormalNames(cfg.nfc, target.prefix, files) && |readings| == |files| && i < |files| && NewIds(w, readings)
    requires AllTaken(Outcomes(cfg, w, Sendings(target, files, readings)))
    ensures KeyOf(cfg, Sendings(target, files, readings)[i].put)
      == S.Key(target.bucket, Paths.KeyLead(cfg.nfc, target.prefix) + files[i].path)
  {
    var ss := Sendings(target, files, readings);
    OutcomeAt(cfg, w, ss, i);
    assert Outcomes(cfg, w, ss)[i].Some?;
    StillNew(cfg, w, ss, i);
    PutOk(cfg, Sent(cfg, w, ss[..i]), ss[i]);
    assert NormalName(cfg.nfc, files[i].path);
    Paths.UploadKeyIs(cfg.nfc, target.prefix, files[i].path);
  }

  /** File `i` is named like the temporary file of a later one. */
  ghost predicate Clobbered(files: seq<Walked>, i: nat)
    requires i < |files|
  {
    exists k :: i < k < |files| && files[i].path == files[k].path + ".tmp"
  }

  lemma SameNames(lead: string, a: string, b: string)
    ensures (lead + a) + ".tmp" == lead + b <==> b == a + ".tmp"
  {
    assert (lead + a) + ".tmp" == lead + (a + ".tmp");
    assert (lead + b)[|lead|..] == b && (lead + (a + ".tmp"))[|lead|..] == a + ".tmp";
  }

  /**
   * What `upload_directory` leaves when the server took every file: each file of the walk has its row and
   * its key, the normal prefix followed by its path; and under the key are the file's bytes, unless a file
   * uploaded later has the same path without a final ".tmp", in which case nothing is there.
   */
  lemma DirectoryStored(cfg: S.Settings, w: S.World, target: Target, files: seq<Walked>, readings: seq<Reading>, i: nat)
    requires NormalNames(cfg.nfc, target.prefix, files) && |readings| == |files| && i < |files| && NewIds(w, readings)
    requires AllTaken(Outcomes(cfg, w, Sendings(target, files, readings)))
    ensures var ss := Sendings(target, files, readings);
      var (w', key) := (Sent(cfg, w, ss), S.Key(target.bucket, Paths.KeyLead(cfg.nfc, target.prefix) + files[i].path));
      && Recorded(cfg, w', ss[i]) && w'.db.files[readings[i].id].key == key
      && HasLifecycle(cfg, w'.db.files[readings[i].id], target.lifecycle, readings[i].now)
      && StoredAt(w', key) == if Clobbered(files, i) then None else Some(readings[i].content)
  {
    var ss := Sendings(target, files, readings);
    KeyTakenFor(cfg, w, target, files, readings, i);
    FilesStanding(cfg, w, ss, target.tenant, i);
    forall k | i < k < |files|
      ensures Overruns(cfg, ss[k], ss[i]) <==> files[i].path == files[k].path + ".tmp"
    {
      KeyTakenFor(cfg, w, target, files, readings, k);
      SameNames(Paths.KeyLead(cfg.nfc, target.prefix), files[k].path, files[i].path);
    }
  }

  /** The last segment of a path, and what stands before it. */
  function NameOf(path: string): (name: string)
    ensures |name| <= |path|
  {
    if path == "" || path[|path| - 1] == '/' then "" else NameOf(path[..|path| - 1]) + [path[|path| - 1]]
  }

  function DirOf(path: string): string { path[..|path| - |NameOf(path)|] }

  /** The files of one directory come in the order of their names, as the walk sorts them. */
  ghost predicate SiblingsSorted(files: seq<Walked>) {
    forall i, k :: 0 <= i < k < |files| && DirOf(files[i].path) == DirOf(files[k].path) ==>
      LexLess(NameOf(files[i].path), NameOf(files[k].path))
  }

  lemma {:induction false} NameGrows(path: string, s: string)
    requires '/' !in s
    ensures NameOf(path + s) == NameOf(path) + s
    decreases |s|
  {
    if s == [] {
      assert path + s == path && NameOf(path) + s == NameOf(path);
    } else {
      var n := |s| - 1;
      NameGrows(path, s[..n]);
      assert (path + s)[..|path + s| - 1] == path + s[..n];
      assert s == s[..n] + [s[n]];
    }
  }

  lemma {:induction false} LongerNotLess(a: string, s: string)
    ensures !LexLess(a + s, a)
  {
    if a != [] {
      LongerNotLess(a[1..], s);
      assert (a + s)[1..] == a[1..] + s;
    }
  }

  /** In a walk that is sorted so, no file is lost. */
  lemma SortedWalkSafe(files: seq<Walked>, i: nat)
    requires SiblingsSorted(files) && i < |files|
    ensures !Clobbered(files, i)
  {
    forall k | i < k < |files| ensures files[i].path != files[k].path + ".tmp" {
      if files[i].path == files[k].path + ".tmp" {
        NameGrows(files[k].path, ".tmp");
        assert DirOf(files[i].path) == DirOf(files[k].path);
        LongerNotLess(NameOf(files[k].path), ".tmp");
      }
    }
  }

  // ------------------------------------------------------------------ reporting one result per file

  /** What is reported for a file: uploaded with its file id, or failed. */
  function Reported(upload: Option<nat>): EntryStatus { if upload.Some? then Uploaded else Failed }

  function Failures(uploads: seq<Option<nat>>): nat {
    if uploads == [] then 0 else Failures(uploads[..|uploads| - 1]) + if uploads[|uploads| - 1].None? then 1 else 0
  }

  /** Directories stay pending; the first `m` files after them have been reported, the others not. */
  ghost predicate ReportedTo(s: seq<EntryStatus>, d: nat, uploads: seq<Option<nat>>, m: nat) {
    && |s| == d + |uploads| && m <= |uploads|
    && (forall p :: 0 <= p < d ==> s[p] == Pending)
    && (forall p :: d <= p < |s| ==> s[p] == if p - d < m then Reported(uploads[p - d]) else Pending)
  }

  lemma {:induction false} ReportCounts(s: seq<EntryStatus>, d: nat, uploads: seq<Option<nat>>)
    requires ReportedTo(s, d, uploads, |uploads|)
    ensures CountOf(s, Failed) == Failures(uploads) && CountOf(s, Uploaded) == |uploads| - Failures(uploads)
    decreases |s|
  {
    if uploads != [] {
      var n := |uploads| - 1;
      assert s[d + n] == Reported(uploads[n]);
      ReportCounts(s[..|s| - 1], d, uploads[..n]);
    } else if d > 0 {
      ReportCounts(s[..|s| - 1], d - 1, []);
    }
  }

  lemma {:induction false} NoFailures(uploads: seq<Option<nat>>)
    ensures Failures(uploads) == 0 <==> forall i :: 0 <= i < |uploads| ==> uploads[i].Some?
    ensures Failures(uploads) <= |uploads|
  {
    if uploads != [] {
      var n := |uploads| - 1;
      NoFailures(uploads[..n]);
      assert uploads == uploads[..n] + [uploads[n]];
    }
  }

  /** Marking entry `id` of job `j` succeeds and touches only that row and the job's counters. */
  lemma MarkOk(env: Env, t: Tables, tenant: string, j: nat, id: nat, status: EntryStatus, file: Option<nat>,
               error: Option<string>)
    requires Inv(env, t) && Visible(t, tenant, j) && id < |t.rows| && t.rows[id].job == j
    ensures var (t', r) := MarkEntry(t, tenant, j, id, status, file, error);
      && r.Ok? && Inv(env, t') && Visible(t', tenant, j)
      && t'.rows == t.rows[id := t.rows[id].(progress := Progress(status, t.rows[id].progress.attempts, file, error))]
      && t'.jobs[j].status == t.jobs[j].status && t'.jobs[j].manifestHash == t.jobs[j].manifestHash
  {
    MarkKeeps(env, t, tenant, j, id, status, file, error);
  }

  /** The entry ids by position do not change; position `p` belongs to the p-th submitted entry. */
  ghost predicate IdsAt(rows: seq<Row>, j: nat, ids: seq<nat>) {
    |Numbered(rows, j)| == |ids| && forall p :: 0 <= p < |ids| ==> Numbered(rows, j)[p].id == ids[p]
  }

  lemma MarkPosition(rows: seq<Row>, j: nat, ids: seq<nat>, p: nat, progress: Progress)
    requires IdsAt(rows, j, ids) && p < |ids|
    ensures var id := ids[p];
      && id < |rows| && rows[id].job == j && p < |Statuses(rows, j)|
      && var rows' := rows[id := rows[id].(progress := progress)];
      IdsAt(rows', j, ids) && Items(rows', j) == Items(rows, j)
      && Statuses(rows', j) == Statuses(rows, j)[p := progress.status]
  {
    MarkAt(rows, j, p, progress);
    IdsKept(rows, ids[p], progress, j);
    ItemsKept(rows, ids[p], progress, j);
  }

  /** `u` differs from `t` only in progress and counters of job `j`. */
  ghost predicate SameJob(t: Tables, u: Tables, j: nat) {
    && j < |t.jobs| && j < |u.jobs| && Items(u.rows, j) == Items(t.rows, j)
    && u.jobs[j].tenant == t.jobs[j].tenant && u.jobs[j].status == t.jobs[j].status
    && u.jobs[j].manifestHash == t.jobs[j].manifestHash
  }

  ghost predicate ReportedIn(rows: seq<Row>, j: nat, ids: seq<nat>, d: nat, uploads: seq<Option<nat>>, m: nat) {
    IdsAt(rows, j, ids) && |ids| == d + |uploads| && ReportedTo(Statuses(rows, j), d, uploads, m)
  }

  lemma ReportStep(env: Env, t: Tables, tenant: string, j: nat, ids: seq<nat>, d: nat, uploads: seq<Option<nat>>,
                   m: nat, id: nat, file: Option<nat>, error: Option<string>)
    requires Inv(env, t) && Visible(t, tenant, j) && ReportedIn(t.rows, j, ids, d, uploads, m)
    requires m < |uploads| && id == ids[d + m]
    ensures var t' := MarkEntry(t, tenant, j, id, Reported(uploads[m]), file, error).0;
      Inv(env, t') && SameJob(t, t', j) && ReportedIn(t'.rows, j, ids, d, uploads, m + 1)
  {
    RowOfReport(t.rows, j, ids, d, uploads, m);
    var progress := Progress(Reported(uploads[m]), t.rows[id].progress.attempts, file, error);
    ReportRows(t.rows, j, ids, d, uploads, m, progress);
    MarkOk(env, t, tenant, j, id, Reported(uploads[m]), file, error);
  }

  lemma RowOfReport(rows: seq<Row>, j: nat, ids: seq<nat>, d: nat, uploads: seq<Option<nat>>, m: nat)
    requires ReportedIn(rows, j, ids, d, uploads, m) && m < |uploads|
    ensures ids[d + m] < |rows| && rows[ids[d + m]].job == j
  {
    MarkPosition(rows, j, ids, d + m, NEW);
  }

  lemma ReportRows(rows: seq<Row>, j: nat, ids: seq<nat>, d: nat, uploads: seq<Option<nat>>, m: nat, progress: Progress)
    requires ReportedIn(rows, j, ids, d, uploads, m) && m < |uploads| && progress.status == Reported(uploads[m])
    requires ids[d + m] < |rows|
    ensures var rows' := rows[ids[d + m] := rows[ids[d + m]].(progress := progress)];
      ReportedIn(rows', j, ids, d, uploads, m + 1) && Items(rows', j) == Items(rows, j)
  {
    MarkPosition(rows, j, ids, d + m, progress);
    OneReported(Statuses(rows, j), d, uploads, m);
  }

  lemma OneReported(s: seq<EntryStatus>, d: nat, uploads: seq<Option<nat>>, m: nat)
    requires ReportedTo(s, d, uploads, m) && m < |uploads|
    ensures ReportedTo(s[d + m := Reported(uploads[m])], d, uploads, m + 1)
  {}

  /** The files are sent one by one, in walk order, and each one's result is reported. */
  method ReportResults(service: DirectoryUploadService, server: V.FileService, tenant: string, j: nat, target: Target,
                       files: seq<Walked>, readings: seq<Reading>, byPath: map<string, nat>, ghost d: nat,
                       ghost ids: seq<nat>)
    requires server.app.Valid() && |readings| == |files| && NewIds(server.app.World(), readings)
    requires Inv(service.env, service.State()) && Visible(service.State(), tenant, j)
    requires ReportedIn(service.rows, j, ids, d,
                        Outcomes(server.app.cfg, server.app.World(), Sendings(target, files, readings)), 0)
    requires forall i :: 0 <= i < |files| ==> files[i].path in byPath && byPath[files[i].path] == ids[d + i]
    modifies service, server.app.db, server.app.storage`objects
    ensures server.app.Valid()
    ensures server.app.World() == Sent(server.app.cfg, old(server.app.World()), Sendings(target, files, readings))
    ensures Inv(service.env, service.State()) && SameJob(old(service.State()), service.State(), j)
    ensures ReportedIn(service.rows, j, ids, d,
                       Outcomes(server.app.cfg, old(server.app.World()), Sendings(target, files, readings)), |files|)
  {
    ghost var w, sendings := server.app.World(), Sendings(target, files, readings);
    assert sendings[..0] == [] && sendings[..|files|] == sendings;
    ReportEach(service, server, tenant, j, target, files, readings, byPath, d, ids, service.State(), w);
  }

  /** The loop over the files. */
  method ReportEach(service: DirectoryUploadService, server: V.FileService, tenant: string, j: nat, target: Target,
                    files: seq<Walked>, readings: seq<Reading>, byPath: map<string, nat>, ghost d: nat,
                    ghost ids: seq<nat>, ghost before: Tables, ghost w: S.World)
    requires |readings| == |files| && NewIds(w, readings) && |ids| == d + |files|
    requires SentTo(server.app, w, Sendings(target, files, readings), 0)
    requires Reporting(service, before, tenant, j, ids, d,
                       Outcomes(server.app.cfg, w, Sendings(target, files, readings)), 0)
    requires forall i :: 0 <= i < |files| ==> files[i].path in byPath && byPath[files[i].path] == ids[d + i]
    modifies service, server.app.db, server.app.storage`objects
    ensures SentTo(server.app, w, Sendings(target, files, readings), |files|)
    ensures Reporting(service, before, tenant, j, ids, d,
                      Outcomes(server.app.cfg, w, Sendings(target, files, readings)), |files|)
  {
    for m := 0 to |files|
      invariant SentTo(server.app, w, Sendings(target, files, readings), m)
      invariant Reporting(service, before, tenant, j, ids, d,
                          Outcomes(server.app.cfg, w, Sendings(target, files, readings)), m)
    {
      SendAndReport(service, server, tenant, j, target, files, readings, byPath[files[m].path], m, ids, d, before, w);
    }
  }

  /** One turn of that loop. */
  method SendAndReport(service: DirectoryUploadService, server: V.FileService, tenant: string, j: nat, target: Target,
                       files: seq<Walked>, readings: seq<Reading>, id: nat, m: nat, ghost ids: seq<nat>, ghost d: nat,
                       ghost before: Tables, ghost w: S.World)
    requires |readings| == |files| && NewIds(w, readings) && m < |files|
    requires SentTo(server.app, w, Sendings(target, files, readings), m)
    requires Reporting(service, before, tenant, j, ids, d,
                       Outcomes(server.app.cfg, w, Sendings(target, files, readings)), m)
    requires |ids| == d + |files| && id == ids[d + m]
    modifies service, server.app.db, server.app.storage`objects
    ensures SentTo(server.app, w, Sendings(target, files, readings), m + 1)
    ensures Reporting(service, before, tenant, j, ids, d,
                      Outcomes(server.app.cfg, w, Sendings(target, files, readings)), m + 1)
  {
    var upload := SendFile(server, target, files, readings, m, w);
    ReportOne(service, tenant, j, id, upload, ids, d, Outcomes(server.app.cfg, w, Sendings(target, files, readings)), m,
              before);
  }

  /** The job as it was but for the results of the first `m` files. */
  ghost predicate Reporting(service: DirectoryUploadService, before: Tables, tenant: string, j: nat, ids: seq<nat>,
                            d: nat, uploads: seq<Option<nat>>, m: nat)
    reads service
  {
    && Inv(service.env, service.State()) && Visible(service.State(), tenant, j) && SameJob(before, service.State(), j)
    && ReportedIn(service.rows, j, ids, d, uploads, m)
  }

  /** One result: uploaded with its file id, or failed. */
  method ReportOne(service: DirectoryUploadService, tenant: string, j: nat, id: nat, upload: Option<nat>,
                   ghost ids: seq<nat>, ghost d: nat, ghost uploads: seq<Option<nat>>, ghost m: nat,
                   ghost before: Tables)
    requires Reporting(service, before, tenant, j, ids, d, uploads, m)
    requires m < |uploads| && id == ids[d + m] && upload == uploads[m]
    modifies service
    ensures Reporting(service, before, tenant, j, ids, d, uploads, m + 1)
  {
    var error := if upload.Some? then None else Some("UPLOAD_FAILED");
    ReportStep(service.env, service.State(), tenant, j, ids, d, uploads, m, id, upload, error);
    var _ := service.MarkEntryResult(tenant, j, id, Reported(upload), upload, error);
  }

  /** The server after the first `m` files were sent. */
  ghost predicate SentTo(app: V.AppState, w: S.World, ss: seq<Sending>, m: nat)
    reads app.db, app.storage, app.metrics
  {
    app.Valid() && m <= |ss| && app.World() == Sent(app.cfg, w, ss[..m])
  }

  /** `upload_file` for the file at position `m`: the whole file in one request. */
  method SendFile(server: V.FileService, target: Target, files: seq<Walked>, readings: seq<Reading>, m: nat,
                  ghost w: S.World)
    returns (upload: Option<nat>)
    requires |readings| == |files| && NewIds(w, readings) && m < |files|
    requires SentTo(server.app, w, Sendings(target, files, readings), m)
    modifies server.app.db, server.app.storage`objects
    ensures SentTo(server.app, w, Sendings(target, files, readings), m + 1)
    ensures upload == Outcomes(server.app.cfg, w, Sendings(target, files, readings))[m]
  {
    ghost var sendings := Sendings(target, files, readings);
    OutcomeAt(server.app.cfg, w, sendings, m);
    StillNew(server.app.cfg, w, sendings, m);
    var put := FilePut(target, files[m].path, readings[m].content);
    var r := server.ProxyUpload(readings[m].id, put, readings[m].now, S.NoFault);
    upload := if r.Ok? then Some(r.value) else None;
  }

  // ------------------------------------------------------------------ the whole directory

  lemma {:induction false} WalkCounts(directories: seq<Walked>, files: seq<Walked>)
    requires (forall i :: 0 <= i < |files| ==> files[i].WalkedFile?)
    requires (forall i :: 0 <= i < |directories| ==> directories[i].WalkedDirectory?)
    ensures CountFiles(directories + files) == |files|
    decreases |directories| + |files|
  {
    var all := directories + files;
    if files != [] {
      WalkCounts(directories, files[..|files| - 1]);
      assert all[..|all| - 1] == directories + files[..|files| - 1];
    } else if directories != [] {
      WalkCounts(directories[..|directories| - 1], []);
      assert all[..|all| - 1] == directories[..|directories| - 1] + [];
    }
  }

  lemma {:induction false} StatusesUntouched(rows: seq<Row>, j: nat)
    requires Untouched(rows, j)
    ensures forall p :: 0 <= p < |Statuses(rows, j)| ==> Statuses(rows, j)[p] == Pending
  {
    if rows != [] { StatusesUntouched(rows[..|rows| - 1], j); }
  }

  /** The walk's map sends each submitted path to the id of the row made from it. */
  lemma IdsFound(rows: seq<Row>, j: nat, walk: seq<Walked>, p: nat)
    requires SameAll(Items(rows, j), walk) && PathsApart(Numbered(rows, j)) && p < |walk|
    ensures p < |Numbered(rows, j)|
    ensures walk[p].path in IdsOf(InOrder(rows, j)) && IdsOf(InOrder(rows, j))[walk[p].path] == Numbered(rows, j)[p].id
  {
    var s := Numbered(rows, j);
    NumberedItems(rows, j);
    DirectoryPages.Sorted(s);
    assert forall q :: 0 <= q < |s| ==> Same(s[q].row.item, walk[q]);
    RawPathsApart(s);
    assert s[p] in s;
    IdsExact(InOrder(rows, j), s[p]);
  }

  lemma RawPathsApart(s: seq<Listed>)
    requires PathsApart(s) && forall q :: 0 <= q < |s| ==> s[q].row.item.relativePath == s[q].row.item.path
    ensures forall y, z :: y in s && z in s && y.row.item.relativePath == z.row.item.relativePath ==> y == z
  {
    forall y, z | y in s && z in s && y.row.item.relativePath == z.row.item.relativePath ensures y == z {
      var a :| 0 <= a < |s| && s[a] == y;
      var b :| 0 <= b < |s| && s[b] == z;
    }
  }

  /** The job holds the walk, is uploading, and its frozen hash is the client's. */
  ghost predicate Started(env: Env, t: Tables, j: nat, walk: seq<Walked>) {
    && j < |t.jobs| && t.jobs[j].status == Uploading && SameAll(Items(t.rows, j), walk)
    && t.jobs[j].manifestHash == Some(env.sha(HashInput(ClientHashed(walk))))
  }

  /** The client's own complete_manifest call; `listed` are the rows in the order the database returns them. */
  function Accept(env: Env, t: Tables, tenant: string, j: nat, hash: string, files: int, directories: int,
                  listed: seq<Item>)
    : (Tables, Result<int, JobError>)
  {
    CompleteManifest(env, t, tenant, j, Some(hash), Some(Counts(Some(files), Some(directories))), listed)
  }

  lemma {:induction false} AcceptOk(env: Env, t: Tables, tenant: string, j: nat, walk: seq<Walked>, hash: string,
                                    files: int, directories: int, listed: seq<Item>)
    requires Inv(env, t) && Visible(t, tenant, j) && t.jobs[j].status == ManifestUploading
    requires walk != [] && SameAll(Items(t.rows, j), walk) && multiset(listed) == multiset(Items(t.rows, j))
    requires hash == env.sha(HashInput(ClientHashed(walk)))
    requires files == CountFiles(walk) && directories == |walk| - CountFiles(walk)
    ensures Accept(env, t, tenant, j, hash, files, directories, listed).1 == Ok(j)
    ensures hash == env.sha(HashInput(HashedFiles(listed)))
  {
    JobHolds(env, t, j);
    JobFacts(env, t.jobs[j], Items(t.rows, j));
    SameHash(env, t.jobs[j].prefix, Items(t.rows, j), listed, walk);
    SameMeasures(Items(t.rows, j), walk);
    Accepted(env, t, tenant, j, files, directories, listed, HashInput(ClientHashed(walk)));
  }

  /** The call succeeds, freezes the hash and leaves the job ready. */
  lemma {:induction false} AcceptReady(env: Env, t: Tables, tenant: string, j: nat, walk: seq<Walked>, hash: string,
                                       files: int, directories: int, listed: seq<Item>)
    requires Inv(env, t) && Visible(t, tenant, j) && t.jobs[j].status == ManifestUploading
    requires walk != [] && SameAll(Items(t.rows, j), walk) && multiset(listed) == multiset(Items(t.rows, j))
    requires hash == env.sha(HashInput(ClientHashed(walk)))
    requires files == CountFiles(walk) && directories == |walk| - CountFiles(walk)
    ensures var t' := Accept(env, t, tenant, j, hash, files, directories, listed).0;
      Inv(env, t') && t' == t.(jobs := t.jobs[j := t.jobs[j].(manifestHash := Some(hash), status := Ready)])
  {
    AcceptOk(env, t, tenant, j, walk, hash, files, directories, listed);
    ManifestShape(env, t, tenant, j, Some(hash), Some(Counts(Some(files), Some(directories))), listed);
    CompleteManifestKeeps(env, t, tenant, j, Some(hash), Some(Counts(Some(files), Some(directories))), listed);
  }

  /** From ready, retry starts the upload. */
  lemma ReadyStarts(env: Env, t: Tables, tenant: string, j: nat, walk: seq<Walked>)
    requires Inv(env, t) && Visible(t, tenant, j) && t.jobs[j].status == Ready && SameAll(Items(t.rows, j), walk)
    requires t.jobs[j].manifestHash == Some(env.sha(HashInput(ClientHashed(walk))))
    ensures var t' := Retry(t, tenant, j).0;
      Inv(env, t') && Visible(t', tenant, j) && Started(env, t', j, walk) && t'.rows == t.rows
  {
    RetryKeeps(env, t, tenant, j);
  }

  /** The order in which the database returns rows: any order, each row once. */
  ghost predicate Reorders(order: seq<Item> -> seq<Item>) { forall s :: multiset(order(s)) == multiset(s) }

  /** manifest/complete with the client's own hash and counts, then ready -> uploading. */
  method FinishManifest(service: DirectoryUploadService, order: seq<Item> -> seq<Item>, tenant: string, j: nat,
                        walk: seq<Walked>, files: nat, directories: nat)
    requires Inv(service.env, service.State()) && Visible(service.State(), tenant, j)
    requires service.jobs[j].status == ManifestUploading
    requires walk != [] && SameAll(Items(service.rows, j), walk) && Reorders(order)
    requires files == CountFiles(walk) && directories == |walk| - CountFiles(walk)
    modifies service
    ensures Inv(service.env, service.State()) && Visible(service.State(), tenant, j)
    ensures Started(service.env, service.State(), j, walk) && service.rows == old(service.rows)
  {
    SendManifest(service, order, tenant, j, walk, files, directories);
    ReadyStarts(service.env, service.State(), tenant, j, walk);
    var _ := service.Retry(tenant, j);
  }

  method SendManifest(service: DirectoryUploadService, order: seq<Item> -> seq<Item>, tenant: string, j: nat,
                      walk: seq<Walked>, files: nat, directories: nat)
    requires Inv(service.env, service.State()) && Visible(service.State(), tenant, j)
    requires service.jobs[j].status == ManifestUploading
    requires walk != [] && SameAll(Items(service.rows, j), walk) && Reorders(order)
    requires files == CountFiles(walk) && directories == |walk| - CountFiles(walk)
    modifies service
    ensures Inv(service.env, service.State())
    ensures Visible(service.State(), tenant, j) && service.rows == old(service.rows)
    ensures service.jobs[j].status == Ready
    ensures service.jobs[j].manifestHash == Some(service.env.sha(HashInput(ClientHashed(walk))))
  {
    var hash := ManifestHash(service.env.sha, ClientHashed(walk));
    var listed := order(Items(service.rows, j));
    AcceptReady(service.env, service.State(), tenant, j, walk, hash, files, directories, listed);
    var _ := service.CompleteManifest(tenant, j, Some(hash), Some(Counts(Some(files), Some(directories))), listed);
  }

  lemma CreatedJob(env: Env, t: Tables, tenant: string, bucket: string, prefix: string, policy: string)
    requires Inv(env, t)
    ensures var (t', r) := CreateJob(env, t, tenant, bucket, prefix, policy);
      Inv(env, t') && (r.Err? ==> t' == t) && (r.Ok? ==> r.value >= 0 && SubmittedTo(env, t', tenant, r.value, []))
  {
    CreateKeeps(env, t, tenant, bucket, prefix, policy);
    if CreateJob(env, t, tenant, bucket, prefix, policy).1.Ok? {
      ItemsNone(t.rows, |t.jobs|);
    }
  }

  lemma NothingReported(rows: seq<Row>, j: nat, d: nat, uploads: seq<Option<nat>>) returns (ids: seq<nat>)
    requires Untouched(rows, j) && |Items(rows, j)| == d + |uploads|
    ensures ReportedIn(rows, j, ids, d, uploads, 0)
  {
    StatusesLength(rows, j);
    StatusesUntouched(rows, j);
    ids := seq(|Numbered(rows, j)|, p requires 0 <= p < |Numbered(rows, j)| => Numbered(rows, j)[p].id);
  }

  /** Completing after every file was reported. */
  lemma CompleteReported(t: Tables, tenant: string, j: nat, ids: seq<nat>, d: nat, uploads: seq<Option<nat>>)
    requires Visible(t, tenant, j) && t.jobs[j].status == Uploading && ReportedIn(t.rows, j, ids, d, uploads, |uploads|)
    ensures var (t', r) := CompleteJob(t, tenant, j);
      if Failures(uploads) == 0 then
        && r == Ok(j) && t'.rows == t.rows && t'.jobs[j].status == Completed
        && t'.jobs[j].manifestHash == t.jobs[j].manifestHash
        && t'.jobs[j].uploadedFiles == |uploads| && t'.jobs[j].failedFiles == 0
      else r == Err(HasFailedEntries(Failures(uploads)))
  {
    StatusesCount(t.rows, j, Failed);
    StatusesCount(t.rows, j, Uploaded);
    ReportCounts(Statuses(t.rows, j), d, uploads);
  }

  /** Learn the entry ids, then send and report each file. */
  method LearnAndReport(service: DirectoryUploadService, server: V.FileService, tenant: string, j: nat, target: Target,
                        directories: seq<Walked>, files: seq<Walked>, readings: seq<Reading>)
    returns (ghost ids: seq<nat>)
    requires server.app.Valid() && |readings| == |files| && NewIds(server.app.World(), readings)
    requires Inv(service.env, service.State()) && Visible(service.State(), tenant, j) && Untouched(service.rows, j)
    requires SameAll(Items(service.rows, j), directories + files)
    modifies service, server.app.db, server.app.storage`objects
    ensures server.app.Valid()
    ensures server.app.World() == Sent(server.app.cfg, old(server.app.World()), Sendings(target, files, readings))
    ensures Inv(service.env, service.State()) && SameJob(old(service.State()), service.State(), j)
    ensures var uploads := Outcomes(server.app.cfg, old(server.app.World()), Sendings(target, files, readings));
      ReportedIn(service.rows, j, ids, |directories|, uploads, |uploads|)
  {
    ghost var d := |directories|;
    PathsApartAlways(service.env, service.State(), j);
    ids := NothingReported(service.rows, j, d,
                           Outcomes(server.app.cfg, server.app.World(), Sendings(target, files, readings)));
    var byPath := LearnIds(service, tenant, j, directories, files, ids);
    ReportResults(service, server, tenant, j, target, files, readings, byPath, d, ids);
  }

  method LearnIds(service: DirectoryUploadService, tenant: string, j: nat, directories: seq<Walked>, files: seq<Walked>,
                  ghost ids: seq<nat>)
    returns (byPath: map<string, nat>)
    requires Visible(service.State(), tenant, j) && PathsApart(Numbered(service.rows, j)) && IdsAt(service.rows, j, ids)
    requires SameAll(Items(service.rows, j), directories + files) && |ids| == |directories| + |files|
    ensures forall i :: 0 <= i < |files| ==> files[i].path in byPath && byPath[files[i].path] == ids[|directories| + i]
  {
    var visited;
    visited, byPath := FollowCursor(service, tenant, j, 1000);
    AllIdsFound(service.rows, j, directories, files, ids, byPath);
  }

  lemma {:induction false} AllIdsFound(rows: seq<Row>, j: nat, directories: seq<Walked>, files: seq<Walked>,
                                       ids: seq<nat>, byPath: map<string, nat>)
    requires SameAll(Items(rows, j), directories + files) && PathsApart(Numbered(rows, j)) && IdsAt(rows, j, ids)
    requires |ids| == |directories| + |files| && byPath == IdsOf(InOrder(rows, j))
    ensures forall i :: 0 <= i < |files| ==> files[i].path in byPath && byPath[files[i].path] == ids[|directories| + i]
  {
    forall i | 0 <= i < |files| ensures files[i].path in byPath && byPath[files[i].path] == ids[|directories| + i] {
      var p := |directories| + i;
      assert (directories + files)[p] == files[i];
      IdsFound(rows, j, directories + files, p);
    }
  }

  /** The last phase: learn the entry ids, send and report each file, complete. */
  method ReportAndComplete(service: DirectoryUploadService, server: V.FileService, tenant: string, j: nat,
                           target: Target, directories: seq<Walked>, files: seq<Walked>, readings: seq<Reading>)
    returns (r: Result<int, JobError>)
    requires server.app.Valid() && |readings| == |files| && NewIds(server.app.World(), readings)
    requires Inv(service.env, service.State()) && Visible(service.State(), tenant, j) && Untouched(service.rows, j)
    requires Started(service.env, service.State(), j, directories + files)
    modifies service, server.app.db, server.app.storage`objects
    ensures server.app.Valid() && Inv(service.env, service.State())
    ensures server.app.World() == Sent(server.app.cfg, old(server.app.World()), Sendings(target, files, readings))
    ensures var uploads := Outcomes(server.app.cfg, old(server.app.World()), Sendings(target, files, readings));
      Concluded(service.env, service.State(), j, directories + files, |files|, Failures(uploads), r)
  {
    ghost var uploads := Outcomes(server.app.cfg, server.app.World(), Sendings(target, files, readings));
    ghost var ids := LearnAndReport(service, server, tenant, j, target, directories, files, readings);
    CompleteConcludes(service.env, service.State(), tenant, j, directories + files, ids, |directories|, uploads);
    r := service.Complete(tenant, j);
  }

  lemma CompleteConcludes(env: Env, t: Tables, tenant: string, j: nat, walk: seq<Walked>, ids: seq<nat>, d: nat,
                          uploads: seq<Option<nat>>)
    requires Inv(env, t) && Visible(t, tenant, j) && Started(env, t, j, walk)
    requires ReportedIn(t.rows, j, ids, d, uploads, |uploads|)
    ensures var (t', r) := CompleteJob(t, tenant, j);
      Inv(env, t') && Concluded(env, t', j, walk, |uploads|, Failures(uploads), r)
  {
    CompleteReported(t, tenant, j, ids, d, uploads);
    CompleteKeeps(env, t, tenant, j);
    if Failures(uploads) > 0 { CompleteRefused(t, tenant, j); }
  }

  lemma CompleteRefused(t: Tables, tenant: string, j: nat)
    requires CompleteJob(t, tenant, j).1.Err?
    ensures CompleteJob(t, tenant, j).0 == t
  {}

  /** How the job ends after its files were sent and `failures` of them were refused. */
  ghost predicate Concluded(env: Env, t: Tables, j: nat, walk: seq<Walked>, files: nat, failures: nat,
                            r: Result<int, JobError>)
  {
    if failures == 0 then r == Ok(j) && Finished(env, t, j, walk, files)
    else r == Err(HasFailedEntries(failures)) && Started(env, t, j, walk)
  }

  /** An empty walk: the server refuses the manifest. */
  method CompleteEmpty(service: DirectoryUploadService, order: seq<Item> -> seq<Item>, tenant: string, j: nat)
    returns (r: Result<int, JobError>)
    requires Inv(service.env, service.State()) && Visible(service.State(), tenant, j) && Items(service.rows, j) == []
    requires service.jobs[j].status.Open() && Reorders(order)
    modifies service
    ensures r == Err(ManifestIncomplete) && service.State() == old(service.State())
  {
    var hash := ManifestHash(service.env.sha, []);
    NothingListed(order);
    r := service.CompleteManifest(tenant, j, Some(hash), Some(Counts(Some(0), Some(0))), order([]));
  }

  lemma NothingListed(order: seq<Item> -> seq<Item>)
    requires Reorders(order)
    ensures order([]) == []
  {
    assert multiset(order([])) == multiset([]);
    assert |multiset(order([]))| == |order([])|;
  }

  /** A completed directory: the walk is stored, its hash is the job's, every file is counted as uploaded. */
  ghost predicate Finished(env: Env, t: Tables, j: nat, walk: seq<Walked>, files: nat) {
    && j < |t.jobs| && t.jobs[j].status == Completed && SameAll(Items(t.rows, j), walk)
    && t.jobs[j].manifestHash == Some(env.sha(HashInput(ClientHashed(walk))))
    && t.jobs[j].uploadedFiles == files && t.jobs[j].failedFiles == 0
  }

  /**
   * `upload_directory`, the directory job and the uploads of its files together. It ends with the refusal
   * of create, or of the first refused batch, or of an empty walk, in the state that leaves and with no
   * file sent. Otherwise every file is sent once, in walk order, and nothing else can go wrong but those
   * uploads: the job completes exactly when the server takes all of them, and else complete reports how
   * many it refused.
   */
  method UploadDirectory(service: DirectoryUploadService, server: V.FileService, order: seq<Item> -> seq<Item>,
                         target: Target, policy: string, directories: seq<Walked>, files: seq<Walked>,
                         readings: seq<Reading>)
    returns (r: Result<int, JobError>)
    requires server.app.Valid() && |readings| == |files| && NewIds(server.app.World(), readings) && Reorders(order)
    requires Inv(service.env, service.State()) && KeptWalk(service.env, directories + files)
    requires (forall i :: 0 <= i < |files| ==> files[i].WalkedFile?)
    requires (forall i :: 0 <= i < |directories| ==> directories[i].WalkedDirectory?)
    modifies service, server.app.db, server.app.storage`objects
    ensures server.app.Valid() && Inv(service.env, service.State())
    ensures var (t1, created) := CreateJob(service.env, old(service.State()), target.tenant, target.bucket,
                                           target.prefix, policy);
      var (w, w') := (old(server.app.World()), server.app.World());
      if created.Err? then r == created && service.State() == old(service.State()) && w' == w
      else
        created.value >= 0 &&
        var (t2, submitted) := Submission(service.env, t1, target.tenant, created.value, directories + files);
        if submitted.Err? then r == submitted && service.State() == t2 && w' == w
        else if directories + files == [] then r == Err(ManifestIncomplete) && service.State() == t2 && w' == w
        else
          var sendings := Sendings(target, files, readings);
          && w' == Sent(server.app.cfg, w, sendings)
          && Concluded(service.env, service.State(), created.value, directories + files, |files|,
                       Failures(Outcomes(server.app.cfg, w, sendings)), r)
  {
    var tenant := target.tenant;
    CreatedJob(service.env, service.State(), tenant, target.bucket, target.prefix, policy);
    r := service.CreateJob(tenant, target.bucket, target.prefix, policy);
    if r.Err? {
      return;
    }
    var j := r.value;
    r := SubmitEntries(service, tenant, j, directories + files);
    if r.Err? {
      return;
    }
    if directories + files == [] {
      r := CompleteEmpty(service, order, tenant, j);
      return;
    }
    WalkCounts(directories, files);
    FinishManifest(service, order, tenant, j, directories + files, |files|, |directories|);
    r := ReportAndComplete(service, server, tenant, j, target, directories, files, readings);
  }
}
