/**
 * Directory requests whose flush or commit fails. The service writes its rows at a flush, then moves the
 * gauge of active jobs; the endpoint commits afterwards. What the database loses, the gauge keeps.
 */
module DirectoryFaults {
  import opened Basics
  import opened Directory
  import Json

  /** Whether the database takes what a request wrote, refuses the flush, or refuses the commit. */
  datatype Database = Commits | FlushFails | CommitFails

  datatype Attempt = Attempt(request: Request, database: Database)

  /** A request as it really ends: the tables are rolled back, the gauge is not. */
  function Try(env: Env, t: Tables, a: Attempt): (Tables, Result<int, JobError>) {
    var (t', r) := Step(env, t, a.request);
    if r.Err? then (t, r)
    else match a.database
      case Commits => (t', r)
      case FlushFails => (t, Err(Unhandled))
      case CommitFails => (t.(active := t'.active), Err(Unhandled))
  }

  ghost predicate TryRun(env: Env, t: Tables, tries: seq<Attempt>, t': Tables)
    decreases |tries|
  {
    if tries == [] then t' == t
    else Admissible(t, tries[0].request) && TryRun(env, Try(env, t, tries[0]).0, tries[1..], t')
  }

  /** The requests whose work the database took. */
  function Committed(tries: seq<Attempt>): seq<Request> {
    if tries == [] then []
    else (if tries[0].database.Commits? then [tries[0].request] else []) + Committed(tries[1..])
  }

  /** By how much a failing commit moves the gauge away: one up for a new job, one down for a finished one. */
  function Drift(env: Env, t: Tables, a: Attempt): int {
    if !a.database.CommitFails? then 0
    else match a.request
      case Create(tenant, bucket, prefix, policy) =>
        if CreateJob(env, t, tenant, bucket, prefix, policy).1.Ok? then 1 else 0
      case Complete(tenant, j) => if CompleteJob(t, tenant, j).1.Ok? && t.jobs[j].status != Completed then -1 else 0
      case Cancel(tenant, j) => if CancelJob(t, tenant, j).1.Ok? then -1 else 0
      case _ => 0
  }

  ghost function TotalDrift(env: Env, t: Tables, tries: seq<Attempt>): int
    decreases |tries|
  {
    if tries == [] then 0 else Drift(env, t, tries[0]) + TotalDrift(env, Try(env, t, tries[0]).0, tries[1..])
  }

  /** The same rows, and a gauge that is `gap` ahead. */
  ghost predicate Ahead(t: Tables, u: Tables, gap: int) { t == u.(active := u.active + gap) }

  lemma CreateAhead(env: Env, t: Tables, u: Tables, gap: int, tenant: string, bucket: string, prefix: string,
                    policy: string)
    requires Ahead(t, u, gap)
    ensures CreateJob(env, t, tenant, bucket, prefix, policy).1 == CreateJob(env, u, tenant, bucket, prefix, policy).1
    ensures Ahead(CreateJob(env, t, tenant, bucket, prefix, policy).0,
                  CreateJob(env, u, tenant, bucket, prefix, policy).0, gap)
  {}

  lemma AddAhead(env: Env, t: Tables, u: Tables, gap: int, tenant: string, j: nat, ds: seq<Json.Document>)
    requires Ahead(t, u, gap)
    ensures AddEntries(env, t, tenant, j, ds).1 == AddEntries(env, u, tenant, j, ds).1
    ensures Ahead(AddEntries(env, t, tenant, j, ds).0, AddEntries(env, u, tenant, j, ds).0, gap)
  {}

  lemma InitiateAhead(t: Tables, u: Tables, gap: int, tenant: string, j: nat, entry: nat)
    requires Ahead(t, u, gap)
    ensures InitiateEntry(t, tenant, j, entry).1 == InitiateEntry(u, tenant, j, entry).1
    ensures Ahead(InitiateEntry(t, tenant, j, entry).0, InitiateEntry(u, tenant, j, entry).0, gap)
  {}

  lemma RetryAhead(t: Tables, u: Tables, gap: int, tenant: string, j: nat)
    requires Ahead(t, u, gap)
    ensures Retry(t, tenant, j).1 == Retry(u, tenant, j).1 && Ahead(Retry(t, tenant, j).0, Retry(u, tenant, j).0, gap)
  {}

  lemma CompleteAhead(t: Tables, u: Tables, gap: int, tenant: string, j: nat)
    requires Ahead(t, u, gap)
    ensures CompleteJob(t, tenant, j).1 == CompleteJob(u, tenant, j).1
    ensures Ahead(CompleteJob(t, tenant, j).0, CompleteJob(u, tenant, j).0, gap)
  {}

  lemma CancelAhead(t: Tables, u: Tables, gap: int, tenant: string, j: nat)
    requires Ahead(t, u, gap)
    ensures CancelJob(t, tenant, j).1 == CancelJob(u, tenant, j).1
    ensures Ahead(CancelJob(t, tenant, j).0, CancelJob(u, tenant, j).0, gap)
  {}

  lemma ManifestAhead(env: Env, t: Tables, u: Tables, gap: int, tenant: string, j: nat, expected: Option<string>,
                      counts: Option<Counts>, listed: seq<Item>)
    requires Ahead(t, u, gap)
    ensures var (a, b) := (CompleteManifest(env, t, tenant, j, expected, counts, listed),
                           CompleteManifest(env, u, tenant, j, expected, counts, listed));
      a.1 == b.1 && Ahead(a.0, b.0, gap)
  {}

  lemma MarkAhead(t: Tables, u: Tables, gap: int, tenant: string, j: nat, entry: nat, status: EntryStatus,
                  file: Option<nat>, error: Option<string>)
    requires Ahead(t, u, gap)
    ensures var (a, b) := (MarkEntry(t, tenant, j, entry, status, file, error),
                           MarkEntry(u, tenant, j, entry, status, file, error));
      a.1 == b.1 && Ahead(a.0, b.0, gap)
  {}

  /** No request reads the gauge; what it adds to it does not depend on where it stands. */
  lemma StepAhead(env: Env, t: Tables, u: Tables, gap: int, r: Request)
    requires Ahead(t, u, gap)
    ensures Step(env, t, r).1 == Step(env, u, r).1 && Ahead(Step(env, t, r).0, Step(env, u, r).0, gap)
  {
    match r
    case Create(tenant, bucket, prefix, policy) => CreateAhead(env, t, u, gap, tenant, bucket, prefix, policy);
    case Add(tenant, j, ds) => AddAhead(env, t, u, gap, tenant, j, ds);
    case CompleteManifestOf(tenant, j, expected, counts, listed) =>
      ManifestAhead(env, t, u, gap, tenant, j, expected, counts, listed);
    case Initiate(tenant, j, entry) => InitiateAhead(t, u, gap, tenant, j, entry);
    case Mark(tenant, j, entry, status, file, error) => MarkAhead(t, u, gap, tenant, j, entry, status, file, error);
    case RetryJob(tenant, j) => RetryAhead(t, u, gap, tenant, j);
    case Complete(tenant, j) => CompleteAhead(t, u, gap, tenant, j);
    case Cancel(tenant, j) => CancelAhead(t, u, gap, tenant, j);
  }

  /** A refused request changes nothing. */
  lemma RefusedStep(env: Env, t: Tables, r: Request)
    requires Step(env, t, r).1.Err?
    ensures Step(env, t, r).0 == t
  {}

  /** What a request adds to the gauge. */
  lemma GaugeStep(env: Env, t: Tables, r: Request)
    ensures Step(env, t, r).0.active == t.active + Drift(env, t, Attempt(r, CommitFails))
  {}

  /** One attempt: the database takes the request or nothing, and the gap grows by the drift. */
  lemma TryAhead(env: Env, t: Tables, u: Tables, gap: int, a: Attempt)
    requires Ahead(t, u, gap)
    ensures Ahead(Try(env, t, a).0, if a.database.Commits? then Step(env, u, a.request).0 else u,
                  gap + Drift(env, t, a))
  {
    StepAhead(env, t, u, gap, a.request);
    GaugeStep(env, t, a.request);
    if Step(env, t, a.request).1.Err? {
      RefusedStep(env, t, a.request);
      RefusedStep(env, u, a.request);
    }
  }

  lemma {:induction false} RunAhead(env: Env, t: Tables, tries: seq<Attempt>, t': Tables, u: Tables, gap: int)
    returns (u': Tables)
    requires Ahead(t, u, gap) && TryRun(env, t, tries, t')
    ensures Run(env, u, Committed(tries), u') && Ahead(t', u', gap + TotalDrift(env, t, tries))
    decreases |tries|
  {
    u' := u;
    if tries != [] {
      var mid := Try(env, t, tries[0]).0;
      TryAhead(env, t, u, gap, tries[0]);
      if tries[0].database.Commits? {
        u' := RunAhead(env, mid, tries[1..], t', Step(env, u, tries[0].request).0, gap + Drift(env, t, tries[0]));
        RunFirst(env, u, tries[0].request, Committed(tries[1..]), u');
      } else {
        u' := RunAhead(env, mid, tries[1..], t', u, gap + Drift(env, t, tries[0]));
        assert [] + Committed(tries[1..]) == Committed(tries[1..]);
      }
    }
  }

  lemma RunFirst(env: Env, u: Tables, r: Request, rest: seq<Request>, u': Tables)
    requires Admissible(u, r) && Run(env, Step(env, u, r).0, rest, u')
    ensures Run(env, u, [r] + rest, u')
  {
    assert ([r] + rest)[1..] == rest;
  }

  /**
   * Failing flushes and commits, over whole runs from the empty tables: jobs and entries are those of the
   * run of the committed requests alone, so everything proved of runs holds of them; and the gauge is the
   * number of unfinished jobs plus the drift of the commits that failed, zero when none did.
   */
  lemma FailingCommits(env: Env, tries: seq<Attempt>, t: Tables) returns (u: Tables)
    requires TryRun(env, EMPTY, tries, t)
    ensures Run(env, EMPTY, Committed(tries), u) && t.jobs == u.jobs && t.rows == u.rows
    ensures t.active == ActiveJobs(t.jobs) + TotalDrift(env, EMPTY, tries)
    ensures (forall a :: a in tries ==> !a.database.CommitFails?) ==> TotalDrift(env, EMPTY, tries) == 0
  {
    u := RunAhead(env, EMPTY, tries, t, EMPTY, 0);
    ReachableInv(env, Committed(tries), u);
    if forall a :: a in tries ==> !a.database.CommitFails? { NoDrift(env, EMPTY, tries); }
  }

  lemma {:induction false} NoDrift(env: Env, t: Tables, tries: seq<Attempt>)
    requires forall a :: a in tries ==> !a.database.CommitFails?
    ensures TotalDrift(env, t, tries) == 0
    decreases |tries|
  {
    if tries != [] {
      assert tries[0] in tries && forall a :: a in tries[1..] ==> a in tries;
      NoDrift(env, Try(env, t, tries[0]).0, tries[1..]);
    }
  }
}
