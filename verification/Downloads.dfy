/** `_stream_parallel` of the SDK against the server's download endpoint. */
module Downloads {
  import opened Basics
  import opened Server
  import opened LocalStorage
  import opened Services
  import opened ParallelDownload
  import R = Ranges

  /** The file `f` of `tenant` can be downloaded in ranges: a live row of positive size, and its object. */
  ghost predicate Downloadable(db: Db, objects: map<Key, bytes>, f: Id, tenant: string) {
    OwnsFile(db, tenant, f) && db.files[f].status == ActiveFile && db.files[f].size > 0 && db.files[f].key in objects
  }

  /** A range inside the announced size is served as what the object has of it. */
  lemma RangeServed(db: Db, objects: map<Key, bytes>, f: Id, tenant: string, start: nat, end: nat)
    requires Downloadable(db, objects, f, tenant) && start <= end < db.files[f].size
    ensures R.PrintRange(start, end) != ""
    ensures Served(db, objects, f, tenant, R.PrintRange(start, end)) ==
      Ok((Some(R.ByteRange(start, end)), Stretch(objects[db.files[f].key], start, Some(end - start + 1))))
  {
    R.PrintParse(start, end, db.files[f].size);
    HeaderText(start, end);
    ParsedServed(db, objects, f, tenant, R.PrintRange(start, end), R.ByteRange(start, end));
  }

  lemma HeaderText(start: nat, end: nat)
    ensures R.PrintRange(start, end) != ""
  {
    assert R.PrintRange(start, end)[0] == 'b';
  }

  lemma ParsedServed(db: Db, objects: map<Key, bytes>, f: Id, tenant: string, header: string, range: R.ByteRange)
    requires Downloadable(db, objects, f, tenant) && header != "" && 0 <= range.start <= range.end
    requires R.ParseByteRange(Some(header), db.files[f].size) == Ok(Some(range))
    ensures Served(db, objects, f, tenant, header) ==
      Ok((Some(range), Stretch(objects[db.files[f].key], range.start, Some(range.end - range.start + 1))))
  {}

  /** The probe succeeds exactly on a downloadable file; otherwise the answer is that of the server. */
  lemma ProbeDecides(db: Db, objects: map<Key, bytes>, f: Id, tenant: string)
    ensures Served(db, objects, f, tenant, R.PrintRange(0, 0)).Ok? <==> Downloadable(db, objects, f, tenant)
    ensures Downloadable(db, objects, f, tenant) ==>
      Served(db, objects, f, tenant, R.PrintRange(0, 0)).value.0 == Some(R.ByteRange(0, 0))
  {
    if OwnsFile(db, tenant, f) {
      HeaderText(0, 0);
      if db.files[f].size > 0 {
        R.PrintParse(0, 0, db.files[f].size);
      } else {
        R.RangeInBounds(Some(R.PrintRange(0, 0)), db.files[f].size);
      }
    }
  }

  /** One ranged GET; the network delivers the body cut up in its own way. */
  method FetchBody(files: FileService, f: Id, tenant: string, range: (nat, nat), cuts: seq<nat>)
    returns (body: seq<bytes>)
    requires files.app.Valid() && Downloadable(files.app.db.State(), files.app.storage.objects, f, tenant)
    requires range.0 <= range.1 < files.app.db.files[f].size
    ensures Carries(body, files.app.storage.objects[files.app.db.files[f].key], range)
  {
    RangeServed(files.app.db.State(), files.app.storage.objects, f, tenant, range.0, range.1);
    var response := files.Download(f, tenant, R.PrintRange(range.0, range.1));
    body := R.Chop(Flatten(response.value.1), cuts);
  }

  /** One ranged GET per worker. */
  method FetchBodies(files: FileService, f: Id, tenant: string, ranges: seq<(nat, nat)>, cuts: nat -> seq<nat>)
    returns (bodies: seq<seq<bytes>>)
    requires files.app.Valid() && Downloadable(files.app.db.State(), files.app.storage.objects, f, tenant)
    requires IsPartition(ranges, files.app.db.files[f].size)
    ensures AllCarry(bodies, files.app.storage.objects[files.app.db.files[f].key], ranges)
  {
    bodies := [];
    ghost var content := files.app.storage.objects[files.app.db.files[f].key];
    for i := 0 to |ranges|
      invariant |bodies| == i && forall k :: 0 <= k < i ==> Carries(bodies[k], content, ranges[k])
    {
      PartitionEnds(ranges, files.app.db.files[f].size, i);
      var body := FetchBody(files, f, tenant, ranges[i], cuts(i));
      bodies := bodies + [body];
    }
  }

  /** What a finished download is: the object fitted to the size of its row, and every byte it has reported. */
  ghost predicate Fetched(app: AppState, f: Id, download: Download)
    requires f in app.db.files && app.db.files[f].key in app.storage.objects && app.db.files[f].size >= 0
    reads app.db, app.storage, download, download.dest
  {
    var size, content := app.db.files[f].size, app.storage.objects[app.db.files[f].key];
    && download.dest[..] == Fit(content, size) && (download.dest[..] == content <==> size == |content|)
    && download.written == Min(size, |content|)
    && (download.progress != [] ==> download.progress[|download.progress| - 1] == download.written)
  }

  /**
   * `_stream_parallel`: probe, truncate, one ranged GET per worker, all workers to their end, whatever
   * the order of their turns and however the network cuts the bodies. The download succeeds exactly on a
   * downloadable file, and then the destination is the object fitted to the size of its row: the object
   * itself exactly when the two sizes agree.
   */
  method StreamParallel(files: FileService, f: Id, tenant: string, requested: nat, cuts: nat -> seq<nat>,
                        turns: seq<Action>)
    returns (result: Option<Download>)
    requires files.app.Valid() && requested >= 1
    ensures result.Some? <==> Downloadable(files.app.db.State(), files.app.storage.objects, f, tenant)
    ensures result.Some? ==> fresh(result.value) && Fetched(files.app, f, result.value)
  {
    ProbeDecides(files.app.db.State(), files.app.storage.objects, f, tenant);
    var probe := files.Download(f, tenant, R.PrintRange(0, 0));
    if probe.Err? {
      return None;
    }
    var size := files.app.db.files[f].size;
    R.ContentRangeRoundTrip(probe.value.0.value, size);
    var total := R.ContentRangeTotal(R.ContentRange(probe.value.0.value, size)).value;
    var ranges := SplitRanges(total, requested);
    var bodies := FetchBodies(files, f, tenant, ranges, cuts);
    ghost var content := files.app.storage.objects[files.app.db.files[f].key];
    AllBegin(ranges, bodies, content, total);
    var download := new Download(ranges, bodies, total);
    RunThreads(download, turns, content, total);
    return Some(download);
  }
}
