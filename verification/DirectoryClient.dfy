/** The SDK's directory upload, first half: entries in batches, and the cursor walk that learns their ids. */
module DirectoryClient {
  import opened Basics
  import opened Sorting
  import opened Json
  import opened Manifest
  import opened Directory
  import opened DirectoryRuns
  import opened DirectoryPages
  import opened DirectoryService
  import Paths

  const BATCH: nat := 500

  // ------------------------------------------------------------------ submitting the entries

  /** No row of job `j` has left `pending`. */
  ghost predicate Untouched(rows: seq<Row>, j: nat) {
    forall i :: 0 <= i < |rows| && rows[i].job == j ==> rows[i].progress.status == Pending
  }

  /** `add_entries` for consecutive batches of 500 entries; the first refused batch ends it. */
  function Submission(env: Env, t: Tables, tenant: string, j: nat, walk: seq<Walked>): (Tables, Result<int, JobError>)
    decreases |walk|
  {
    if walk == [] then (t, Ok(j))
    else
      var n := Min(BATCH, |walk|);
      var (t', r) := AddEntries(env, t, tenant, j, SubmittedAll(walk[..n]));
      if r.Err? then (t', r) else Submission(env, t', tenant, j, walk[n..])
  }

  lemma {:induction false} SubmissionStep(env: Env, t: Tables, tenant: string, j: nat, walk: seq<Walked>, start: nat)
    requires start < |walk|
    ensures var stop := Min(start + BATCH, |walk|);
      var (t', r) := AddEntries(env, t, tenant, j, SubmittedAll(walk[start..stop]));
      Submission(env, t, tenant, j, walk[start..]) == if r.Err? then (t', r)
      else Submission(env, t', tenant, j, walk[stop..])
  {
    var stop := Min(start + BATCH, |walk|);
    Slices(walk, start, stop);
    SubmissionUnfold(env, t, tenant, j, walk[start..], stop - start, walk[start..stop], walk[stop..]);
  }

  lemma {:induction false} Slices(walk: seq<Walked>, start: nat, stop: nat)
    requires start <= stop <= |walk|
    ensures walk[start..][..stop - start] == walk[start..stop] && walk[start..][stop - start..] == walk[stop..]
  {}

  lemma {:induction false} SubmissionUnfold(env: Env, t: Tables, tenant: string, j: nat, walk: seq<Walked>, n: nat,
                                            first: seq<Walked>, later: seq<Walked>)
    requires walk != [] && n == Min(BATCH, |walk|) && walk[..n] == first && walk[n..] == later
    ensures var (t', r) := AddEntries(env, t, tenant, j, SubmittedAll(first));
      Submission(env, t, tenant, j, walk) == if r.Err? then (t', r) else Submission(env, t', tenant, j, later)
  {}

  lemma PathSetConcat(a: seq<Item>, b: seq<Item>)
    ensures PathSet(a + b) == PathSet(a) + PathSet(b)
  {
    forall p ensures p in PathSet(a + b) <==> p in PathSet(a) + PathSet(b) {
      if p in PathSet(a) {
        var i :| 0 <= i < |a| && a[i].path == p;
        assert (a + b)[i].path == p;
      }
      if p in PathSet(b) {
        var i :| 0 <= i < |b| && b[i].path == p;
        assert (a + b)[|a| + i].path == p;
      }
    }
  }

  /** The answer for a non-empty list from the answer for its first entry. */
  function Onward(one: Result<Item, JobError>, rest: Result<seq<Item>, JobError>): Result<seq<Item>, JobError> {
    if one.Err? then Err(one.error) else if rest.Err? then rest else Ok([one.value] + rest.value)
  }

  lemma AdmitFirst(env: Env, prefix: string, a: seq<Document>, b: seq<Document>, existing: set<string>)
    returns (one: Result<Item, JobError>, more: set<string>)
    requires a != []
    ensures one.Ok? ==> more == existing + {one.value.path}
    ensures Admit(env, prefix, a, existing) == Onward(one, Admit(env, prefix, a[1..], more))
    ensures Admit(env, prefix, a + b, existing) == Onward(one, Admit(env, prefix, a[1..] + b, more))
  {
    one := AdmitOne(env, prefix, a[0], existing);
    more := if one.Ok? then existing + {one.value.path} else existing;
    assert (a + b)[0] == a[0] && (a + b)[1..] == a[1..] + b;
  }

  /** The answer for two lists from the answers for the first and, with its paths carried over, the second. */
  function Joined(first: Result<seq<Item>, JobError>, second: Result<seq<Item>, JobError>)
    : Result<seq<Item>, JobError>
  {
    if first.Err? then first else if second.Err? then second else Ok(first.value + second.value)
  }

  function Carried(existing: set<string>, first: Result<seq<Item>, JobError>): set<string> {
    if first.Err? then existing else existing + PathSet(first.value)
  }

  lemma OnwardJoined(one: Result<Item, JobError>, first: Result<seq<Item>, JobError>,
                     second: Result<seq<Item>, JobError>)
    ensures Onward(one, Joined(first, second)) == Joined(Onward(one, first), second)
  {
    if one.Ok? && first.Ok? && second.Ok? {
      assert [one.value] + (first.value + second.value) == ([one.value] + first.value) + second.value;
    }
  }

  lemma CarriedOnward(existing: set<string>, one: Result<Item, JobError>, more: set<string>,
                      first: Result<seq<Item>, JobError>)
    requires one.Ok? && more == existing + {one.value.path} && first.Ok?
    ensures Carried(existing, Onward(one, first)) == Carried(more, first)
  {
    Seam(existing, one.value, first.value);
  }

  /** Checking entries in one go or in two with the paths carried over comes to the same. */
  lemma {:induction false} AdmitConcat(env: Env, prefix: string, a: seq<Document>, b: seq<Document>,
                                       existing: set<string>)
    ensures var first := Admit(env, prefix, a, existing);
      Admit(env, prefix, a + b, existing) == Joined(first, Admit(env, prefix, b, Carried(existing, first)))
    decreases |a|
  {
    if a == [] {
      AdmitNothing(env, prefix, b, existing);
    } else {
      var one, more := AdmitFirst(env, prefix, a, b, existing);
      var rest := Admit(env, prefix, a[1..], more);
      AdmitConcat(env, prefix, a[1..], b, more);
      OnwardJoined(one, rest, Admit(env, prefix, b, Carried(more, rest)));
      if one.Ok? && rest.Ok? { CarriedOnward(existing, one, more, rest); }
    }
  }

  lemma AdmitNothing(env: Env, prefix: string, b: seq<Document>, existing: set<string>)
    ensures [] + b == b && Admit(env, prefix, [], existing) == Ok([]) && Carried(existing, Ok([])) == existing
    ensures Joined(Ok([]), Admit(env, prefix, b, existing)) == Admit(env, prefix, b, existing)
  {
    var second := Admit(env, prefix, b, existing);
    if second.Ok? { assert [] + second.value == second.value; }
  }

  lemma Seam(existing: set<string>, item: Item, rest: seq<Item>)
    ensures existing + PathSet([item] + rest) == (existing + {item.path}) + PathSet(rest)
  {
    PathSetConcat([item], rest);
    assert [item][0].path in PathSet([item]);
  }

  /**
   * How a walk is cut into batches does not matter: an open job takes all of it exactly when one batch of
   * it is within the request limit and the whole walk, checked in one go, is admitted; and then the job
   * gains the rows of the whole walk.
   */
  lemma {:induction false} BatchesDoNotMatter(env: Env, t: Tables, tenant: string, j: nat, walk: seq<Walked>)
    requires Visible(t, tenant, j) && t.jobs[j].status.Open()
    ensures var (t', r) := Submission(env, t, tenant, j, walk);
      var whole := Admit(env, t.jobs[j].prefix, SubmittedAll(walk), PathSet(Items(t.rows, j)));
      && (r.Ok? <==> walk == [] || (Min(500, |walk|) <= env.maximumEntries && whole.Ok?))
      && (r.Ok? ==> whole.Ok? && Items(t'.rows, j) == Items(t.rows, j) + whole.value)
    decreases |walk|
  {
    if walk == [] {
      assert Items(t.rows, j) + [] == Items(t.rows, j);
    } else {
      var n := Min(BATCH, |walk|);
      var first, rest := walk[..n], walk[n..];
      SubmittedSplit(walk, n);
      AdmitConcat(env, t.jobs[j].prefix, SubmittedAll(first), SubmittedAll(rest), PathSet(Items(t.rows, j)));
      var t', ok := SubmissionFirst(env, t, tenant, j, walk);
      if ok {
        BatchesDoNotMatter(env, t', tenant, j, rest);
        var admitted := Admit(env, t.jobs[j].prefix, SubmittedAll(first), PathSet(Items(t.rows, j)));
        var later := Admit(env, t.jobs[j].prefix, SubmittedAll(rest), Carried(PathSet(Items(t.rows, j)), admitted));
        if later.Ok? { DirectoryRuns.Regroup(Items(t.rows, j), admitted.value, later.value); }
      }
    }
  }

  lemma SubmittedSplit(walk: seq<Walked>, n: nat)
    requires n <= |walk|
    ensures SubmittedAll(walk) == SubmittedAll(walk[..n]) + SubmittedAll(walk[n..])
  {}

  /** The first batch of a submission to an open job. */
  lemma SubmissionFirst(env: Env, t: Tables, tenant: string, j: nat, walk: seq<Walked>) returns (t': Tables, ok: bool)
    requires Visible(t, tenant, j) && t.jobs[j].status.Open() && walk != []
    ensures var n := Min(BATCH, |walk|);
      var admitted := Admit(env, t.jobs[j].prefix, SubmittedAll(walk[..n]), PathSet(Items(t.rows, j)));
      && (ok <==> n <= env.maximumEntries && admitted.Ok?)
      && (if ok then
            && Submission(env, t, tenant, j, walk) == Submission(env, t', tenant, j, walk[n..])
            && Visible(t', tenant, j) && t'.jobs[j].status.Open() && t'.jobs[j].prefix == t.jobs[j].prefix
            && Items(t'.rows, j) == Items(t.rows, j) + admitted.value
            && PathSet(Items(t'.rows, j)) == PathSet(Items(t.rows, j)) + PathSet(admitted.value)
          else Submission(env, t, tenant, j, walk).1.Err?)
  {
    var n := Min(BATCH, |walk|);
    var answer := AddEntries(env, t, tenant, j, SubmittedAll(walk[..n]));
    t', ok := answer.0, answer.1.Ok?;
    if ok { FirstBatch(env, t, tenant, j, SubmittedAll(walk[..n])); }
  }

  lemma FirstBatch(env: Env, t: Tables, tenant: string, j: nat, ds: seq<Document>)
    requires Visible(t, tenant, j) && AddEntries(env, t, tenant, j, ds).1.Ok?
    ensures var t' := AddEntries(env, t, tenant, j, ds).0;
      var admitted := Admit(env, t.jobs[j].prefix, ds, PathSet(Items(t.rows, j)));
      && admitted.Ok? && Visible(t', tenant, j) && t'.jobs[j].status.Open() && t'.jobs[j].prefix == t.jobs[j].prefix
      && Items(t'.rows, j) == Items(t.rows, j) + admitted.value
      && PathSet(Items(t'.rows, j)) == PathSet(Items(t.rows, j)) + PathSet(admitted.value)
  {
    var items := Admit(env, t.jobs[j].prefix, ds, PathSet(Items(t.rows, j))).value;
    ItemsGrow(t.rows, j, items, j);
    PathSetConcat(Items(t.rows, j), items);
  }

  /** The job holds the part of the walk submitted so far, all of it pending. */
  ghost predicate SubmittedTo(env: Env, t: Tables, tenant: string, j: nat, walk: seq<Walked>) {
    && Inv(env, t) && Visible(t, tenant, j) && Untouched(t.rows, j) && SameAll(Items(t.rows, j), walk)
    && (walk != [] ==> t.jobs[j].status == ManifestUploading)
  }

  /** Every entry is sent once, in order, in batches of at most 500; the first refused batch ends it. */
  method SubmitEntries(service: DirectoryUploadService, tenant: string, j: nat, walk: seq<Walked>)
    returns (r: Result<int, JobError>)
    requires KeptWalk(service.env, walk) && SubmittedTo(service.env, service.State(), tenant, j, [])
    modifies service
    ensures (service.State(), r) == Submission(service.env, old(service.State()), tenant, j, walk)
    ensures Inv(service.env, service.State()) && Visible(service.State(), tenant, j)
    ensures r.Ok? ==> SubmittedTo(service.env, service.State(), tenant, j, walk)
  {
    var start := 0;
    ghost var whole := Submission(service.env, service.State(), tenant, j, walk);
    assert walk[..0] == [] && walk[0..] == walk;
    while start < |walk|
      invariant start <= |walk| && SubmittedTo(service.env, service.State(), tenant, j, walk[..start])
      invariant whole == Submission(service.env, service.State(), tenant, j, walk[start..])
    {
      var stop := Min(start + BATCH, |walk|);
      ghost var t := service.State();
      SubmissionStep(service.env, t, tenant, j, walk, start);
      BatchSubmitted(service.env, t, tenant, j, walk, start, stop);
      var added := service.AddEntries(tenant, j, SubmittedAll(walk[start..stop]));
      if added.Err? {
        return added;
      }
      start := stop;
    }
    assert walk[..start] == walk;
    return Ok(j);
  }

  lemma BatchSubmitted(env: Env, t: Tables, tenant: string, j: nat, walk: seq<Walked>, start: nat, stop: nat)
    requires start < stop <= |walk| && SubmittedTo(env, t, tenant, j, walk[..start]) && KeptWalk(env, walk)
    ensures var (t', r) := AddEntries(env, t, tenant, j, SubmittedAll(walk[start..stop]));
      if r.Ok? then SubmittedTo(env, t', tenant, j, walk[..stop]) else t' == t
  {
    AddKeeps(env, t, tenant, j, SubmittedAll(walk[start..stop]));
    BatchKept(env, t, tenant, j, walk, start, stop);
  }

  lemma {:induction false} BatchKept(env: Env, t: Tables, tenant: string, j: nat, walk: seq<Walked>, start: nat,
                                     stop: nat)
    requires Visible(t, tenant, j) && KeptWalk(env, walk) && start < stop <= |walk|
    requires SameAll(Items(t.rows, j), walk[..start]) && Untouched(t.rows, j)
    ensures var (t', r) := AddEntries(env, t, tenant, j, SubmittedAll(walk[start..stop]));
      && Visible(t', tenant, j) && Untouched(t'.rows, j)
      && (r.Ok? ==> SameAll(Items(t'.rows, j), walk[..stop]) && t'.jobs[j].status == ManifestUploading)
  {
    var batch := walk[start..stop];
    var ds := SubmittedAll(batch);
    if AddEntries(env, t, tenant, j, ds).1.Ok? {
      BatchAdded(env, t, tenant, j, ds);
      KeptSlice(env, walk, start, stop);
      BatchSame(env, t.jobs[j].prefix, batch, PathSet(Items(t.rows, j)));
      WalkGrown(Items(t.rows, j), walk, start, stop, Admit(env, t.jobs[j].prefix, ds, PathSet(Items(t.rows, j))).value);
    } else {
      AddRefused(env, t, tenant, j, ds);
    }
  }

  lemma KeptSlice(env: Env, walk: seq<Walked>, start: nat, stop: nat)
    requires KeptWalk(env, walk) && start <= stop <= |walk|
    ensures KeptWalk(env, walk[start..stop])
  {}

  lemma WalkGrown(items: seq<Item>, walk: seq<Walked>, start: nat, stop: nat, more: seq<Item>)
    requires start <= stop <= |walk| && SameAll(items, walk[..start]) && SameAll(more, walk[start..stop])
    ensures SameAll(items + more, walk[..stop])
  {
    SameConcat(items, walk[..start], more, walk[start..stop]);
    assert walk[..stop] == walk[..start] + walk[start..stop];
  }

  lemma SameConcat(a: seq<Item>, x: seq<Walked>, b: seq<Item>, y: seq<Walked>)
    requires SameAll(a, x) && SameAll(b, y)
    ensures SameAll(a + b, x + y)
  {}

  lemma BatchAdded(env: Env, t: Tables, tenant: string, j: nat, ds: seq<Document>)
    requires Untouched(t.rows, j) && AddEntries(env, t, tenant, j, ds).1.Ok?
    ensures j < |t.jobs| && Admit(env, t.jobs[j].prefix, ds, PathSet(Items(t.rows, j))).Ok?
    ensures var t' := AddEntries(env, t, tenant, j, ds).0;
      && Visible(t', tenant, j) && t'.jobs[j].status == ManifestUploading && Untouched(t'.rows, j)
      && Items(t'.rows, j) == Items(t.rows, j) + Admit(env, t.jobs[j].prefix, ds, PathSet(Items(t.rows, j))).value
  {
    var items := Admit(env, t.jobs[j].prefix, ds, PathSet(Items(t.rows, j))).value;
    ItemsGrow(t.rows, j, items, j);
    UntouchedGrow(t.rows, j, items);
  }

  lemma UntouchedGrow(rows: seq<Row>, j: nat, items: seq<Item>)
    requires Untouched(rows, j)
    ensures Untouched(rows + NewRows(j, items), j)
  {}

  lemma BatchSame(env: Env, prefix: string, batch: seq<Walked>, existing: set<string>)
    requires KeptWalk(env, batch) && Admit(env, prefix, SubmittedAll(batch), existing).Ok?
    ensures SameAll(Admit(env, prefix, SubmittedAll(batch), existing).value, batch)
  {
    AdmitAdmits(env, prefix, SubmittedAll(batch), existing);
    AdmittedWalk(env, batch, Admit(env, prefix, SubmittedAll(batch), existing).value);
  }

  // ------------------------------------------------------------------ the cursor walk

  /** `entry_ids[row["relative_path"]] = row["id"]` for each row in turn. */
  function IdsOf(s: seq<Listed>): map<string, nat> {
    if s == [] then map[] else IdsOf(s[..|s| - 1])[s[|s| - 1].row.item.relativePath := s[|s| - 1].id]
  }

  lemma {:induction false} IdsExact(s: seq<Listed>, x: Listed)
    requires x in s
    requires forall y, z :: y in s && z in s && y.row.item.relativePath == z.row.item.relativePath ==> y == z
    ensures x.row.item.relativePath in IdsOf(s) && IdsOf(s)[x.row.item.relativePath] == x.id
  {
    var n := |s| - 1;
    if x != s[n] {
      assert x in s[..n] && forall y :: y in s[..n] ==> y in s;
      IdsExact(s[..n], x);
    }
  }

  lemma PathsApartAlways(env: Env, t: Tables, j: nat)
    requires Inv(env, t) && j < |t.jobs|
    ensures PathsApart(Numbered(t.rows, j))
  {
    JobHolds(env, t, j);
    NumberedItems(t.rows, j);
    GoodNumbered(env, t.jobs[j].prefix, Items(t.rows, j), Numbered(t.rows, j));
  }

  lemma GoodNumbered(env: Env, prefix: string, items: seq<Item>, s: seq<Listed>)
    requires GoodItems(env, prefix, items)
    requires |s| == |items| && forall i :: 0 <= i < |s| ==> s[i].row.item == items[i]
    ensures PathsApart(s)
  {
    forall i | 0 <= i < |s| ensures s[i].row.item.path != "" {
      assert WellPlaced(env, prefix, items[i]);
      NormalizedNotEmpty(env.nfc, items[i].relativePath, env.maximumDepth, env.maximumBytes);
    }
  }

  lemma NormalizedNotEmpty(nfc: string -> string, raw: string, d: int, b: int)
    ensures Paths.ServerNormalize(nfc, raw, d, b).Ok? ==> Paths.ServerNormalize(nfc, raw, d, b).value != ""
  {}

  /**
   * Following next_cursor from the start until it is absent, for every limit: the walk ends, and it has
   * visited every entry of the job exactly once, in ascending path order.
   */
  method FollowCursor(service: DirectoryUploadService, tenant: string, j: nat, limit: int)
    returns (visited: seq<Listed>, ids: map<string, nat>)
    requires Visible(service.State(), tenant, j) && PathsApart(Numbered(service.rows, j))
    ensures visited == InOrder(service.rows, j) && ids == IdsOf(visited)
  {
    ghost var all := InOrder(service.rows, j);
    visited, ids := [], map[];
    var cursor: Option<string> := None;
    while true
      invariant CursorAt(all, |visited|, cursor) && visited == all[..|visited|] && ids == IdsOf(visited)
      decreases |all| - |visited|
    {
      var page, next := FetchPage(service, tenant, j, cursor, limit, all, |visited|);
      ids := IndexPage(visited, ids, page);
      visited := visited + page;
      cursor := next;
      if cursor.None? {
        break;
      }
    }
  }

  /** One request of the walk: the page after the first `k` entries, and where the walk stands then. */
  method FetchPage(service: DirectoryUploadService, tenant: string, j: nat, cursor: Option<string>, limit: int,
                   ghost all: seq<Listed>, ghost k: nat)
    returns (page: seq<Listed>, next: Option<string>)
    requires Visible(service.State(), tenant, j) && PathsApart(Numbered(service.rows, j))
    requires all == InOrder(service.rows, j) && CursorAt(all, k, cursor)
    ensures k + |page| <= |all| && all[..k] + page == all[..k + |page|]
    ensures next.None? ==> all[..k + |page|] == all
    ensures next.Some? ==> |page| >= 1 && CursorAt(all, k + |page|, next)
  {
    var answer := service.ListEntries(tenant, j, cursor, limit);
    PageAt(service.rows, j, k, cursor, limit);
    RunStep(all, k, PageSize(limit));
    page, next := answer.value.0, answer.value.1;
  }

  lemma RunStep(all: seq<Listed>, k: nat, n: nat)
    requires k <= |all| && n >= 1
    ensures var (page, next) := NextRun(all, k, n);
      && k + |page| <= |all| && all[..k] + page == all[..k + |page|]
      && (next.None? ==> all[..k + |page|] == all)
      && (next.Some? ==> |page| >= 1 && CursorAt(all, k + |page|, next))
  {}

  method IndexPage(ghost visited: seq<Listed>, known: map<string, nat>, page: seq<Listed>)
    returns (ids: map<string, nat>)
    requires known == IdsOf(visited)
    ensures ids == IdsOf(visited + page)
  {
    ids := known;
    assert visited + page[..0] == visited;
    for i := 0 to |page|
      invariant ids == IdsOf(visited + page[..i])
    {
      assert (visited + page[..i + 1])[..|visited| + i] == visited + page[..i];
      ids := ids[page[i].row.item.relativePath := page[i].id];
    }
    assert page[..|page|] == page;
  }

  /** Two calls never disagree and no entry is missed: what the walk yields, without the order. */
  lemma WalkExact(env: Env, t: Tables, j: nat, x: Listed)
    requires Inv(env, t) && j < |t.jobs|
    ensures x in InOrder(t.rows, j) <==> x.id < |t.rows| && t.rows[x.id] == x.row && x.row.job == j
    ensures |InOrder(t.rows, j)| == |Items(t.rows, j)|
    ensures forall a, b :: 0 <= a < b < |InOrder(t.rows, j)| ==>
      LexLess(InOrder(t.rows, j)[a].row.item.path, InOrder(t.rows, j)[b].row.item.path)
  {
    PathsApartAlways(env, t, j);
    DirectoryPages.Sorted(Numbered(t.rows, j));
    NumberedExact(t.rows, j, x);
    NumberedItems(t.rows, j);
    var all := InOrder(t.rows, j);
    forall a, b | 0 <= a < b < |all| ensures LexLess(all[a].row.item.path, all[b].row.item.path) {
      assert DirectoryPages.ByPath()(all[a], all[b]);
    }
  }

  // ------------------------------------------------------------------ entry statuses in insertion order

  function Statuses(rows: seq<Row>, j: nat): seq<EntryStatus> {
    if rows == [] then []
    else Statuses(rows[..|rows| - 1], j) + if rows[|rows| - 1].job == j then [rows[|rows| - 1].progress.status] else []
  }

  function CountOf(s: seq<EntryStatus>, status: EntryStatus): nat {
    if s == [] then 0 else CountOf(s[..|s| - 1], status) + if s[|s| - 1] == status then 1 else 0
  }

  lemma CountOfPush(s: seq<EntryStatus>, x: EntryStatus, status: EntryStatus)
    ensures CountOf(s + [x], status) == CountOf(s, status) + if x == status then 1 else 0
  {
    assert (s + [x])[..|s|] == s;
  }

  lemma {:induction false} StatusesCount(rows: seq<Row>, j: nat, status: EntryStatus)
    ensures CountStatus(rows, j, status) == CountOf(Statuses(rows, j), status)
  {
    if rows != [] {
      var n := |rows| - 1;
      StatusesCount(rows[..n], j, status);
      CountOfPush(Statuses(rows[..n], j), rows[n].progress.status, status);
      assert rows[n].job != j ==> Statuses(rows, j) == Statuses(rows[..n], j);
    }
  }

  lemma {:induction false} StatusesLength(rows: seq<Row>, j: nat)
    ensures |Statuses(rows, j)| == |Items(rows, j)| == |Numbered(rows, j)|
  {
    if rows != [] { StatusesLength(rows[..|rows| - 1], j); }
  }

  /** Marking the row at position p of the job's rows changes the status at p and no other. */
  lemma {:induction false} MarkAt(rows: seq<Row>, j: nat, p: nat, progress: Progress)
    requires p < |Numbered(rows, j)|
    ensures var id := Numbered(rows, j)[p].id;
      && id < |rows| && rows[id].job == j
      && p < |Statuses(rows, j)|
      && Statuses(rows[id := rows[id].(progress := progress)], j) == Statuses(rows, j)[p := progress.status]
  {
    var n := |rows| - 1;
    StatusesLength(rows[..n], j);
    if p < |Numbered(rows[..n], j)| {
      MarkAt(rows[..n], j, p, progress);
      var id := Numbered(rows, j)[p].id;
      assert rows[id := rows[id].(progress := progress)][..n] == rows[..n][id := rows[..n][id].(progress := progress)];
    } else {
      assert rows[n := rows[n].(progress := progress)][..n] == rows[..n];
    }
  }

  /** Ids, and so positions, do not depend on statuses. */
  lemma {:induction false} IdsKept(rows: seq<Row>, i: nat, progress: Progress, j: nat)
    requires i < |rows|
    ensures var rows' := rows[i := rows[i].(progress := progress)];
      && |Numbered(rows', j)| == |Numbered(rows, j)|
      && forall p :: 0 <= p < |Numbered(rows, j)| ==> Numbered(rows', j)[p].id == Numbered(rows, j)[p].id
  {
    var n := |rows| - 1;
    var rows' := rows[i := rows[i].(progress := progress)];
    if i < n {
      IdsKept(rows[..n], i, progress, j);
      assert rows'[..n] == rows[..n][i := rows[..n][i].(progress := progress)];
    } else {
      assert rows'[..n] == rows[..n];
    }
  }
}
