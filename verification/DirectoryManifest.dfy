/** The manifest the server hands out, and what streaming it back into another job does. */
module DirectoryManifest {
  import opened Basics
  import opened Json
  import opened Manifest
  import opened Sorting
  import opened Directory
  import opened DirectoryPages
  import opened DirectoryClient
  import Decimal
  import Paths
  import T = Text

  function KindText(kind: Kind): string {
    match kind case File => "file" case Directory => "directory"
  }

  /** One row as the manifest endpoint describes it. */
  function Described(i: Item): Entry {
    map[TYPE := Text(KindText(i.kind))][PATH := Text(i.relativePath)][SIZE := Number(i.size)]
       [FINGERPRINT := if i.fingerprint.None? then Null else Text(i.fingerprint.value)]
       [MODIFIED := if i.modified.None? then Null else Number(i.modified.value)]
  }

  function DescribedAll(items: seq<Item>): seq<Entry> {
    if items == [] then [] else [Described(items[0])] + DescribedAll(items[1..])
  }

  /** No line separator that JSON leaves raw, in the path or in the fingerprint. */
  ghost predicate Printable(i: Item) {
    Unbroken(Text(i.relativePath)) && (i.fingerprint.Some? ==> Unbroken(Text(i.fingerprint.value)))
  }

  lemma KindRead(kind: Kind)
    ensures KindOf(Text(KindText(kind))) == Some(kind) && Unbroken(Text(KindText(kind)))
  {
    assert |"file"| != |"directory"|;
  }

  /** What is read back of one row, field by field. */
  lemma ReadBack(i: Item)
    ensures var f := Filled(Described(i));
      && Get(f, PATH, Text("")) == Text(i.relativePath) && Get(f, SIZE, Number(0)) == Number(i.size)
      && Get(f, TYPE, Text("file")) == Text(KindText(i.kind))
      && Get(f, FINGERPRINT, Null) == (if i.fingerprint.None? then Null else Text(i.fingerprint.value))
      && Get(f, MODIFIED, Null) == (if i.modified.None? then Null else Number(i.modified.value))
  {
    KeysDiffer();
  }

  lemma DescribedOneLine(i: Item)
    ensures OneLine(Described(i)) <==> Printable(i)
  {
    KeysDiffer();
    ReadBack(i);
    KindRead(i.kind);
    var f := Filled(Described(i));
    assert f.Keys <= {TYPE, PATH, SIZE, FINGERPRINT, MODIFIED};
    if OneLine(Described(i)) {
      assert PATH in f && (i.fingerprint.Some? ==> FINGERPRINT in f);
    }
  }

  /** Any entry with these five readings is admitted as `i`. */
  lemma AdmitReading(env: Env, prefix: string, i: Item, e: Entry, kind: Value, existing: set<string>)
    requires WellPlaced(env, prefix, i) && i.path !in existing && KindOf(kind) == Some(i.kind)
    requires Get(e, PATH, Text("")) == Text(i.relativePath) && Get(e, SIZE, Number(0)) == Number(i.size)
    requires Get(e, TYPE, Text("file")) == kind
    requires Get(e, FINGERPRINT, Null) == (if i.fingerprint.None? then Null else Text(i.fingerprint.value))
    requires Get(e, MODIFIED, Null) == (if i.modified.None? then Null else Number(i.modified.value))
    ensures AdmitOne(env, prefix, Object(e), existing) == Ok(i)
  {
    assert Describe(env, prefix, e, i.relativePath, i.path) == Ok(i) by { DescribeReading(env, prefix, i, e, kind); }
  }

  lemma DescribeReading(env: Env, prefix: string, i: Item, e: Entry, kind: Value)
    requires Paths.JoinPrefix(env.nfc, prefix, i.path) == Ok(i.objectKey) && KindOf(kind) == Some(i.kind)
    requires Get(e, SIZE, Number(0)) == Number(i.size) && Get(e, TYPE, Text("file")) == kind
    requires Get(e, FINGERPRINT, Null) == (if i.fingerprint.None? then Null else Text(i.fingerprint.value))
    requires Get(e, MODIFIED, Null) == (if i.modified.None? then Null else Number(i.modified.value))
    ensures Describe(env, prefix, e, i.relativePath, i.path) == Ok(i)
  {}

  lemma ReadmittedOne(env: Env, prefix: string, i: Item, existing: set<string>)
    requires WellPlaced(env, prefix, i) && i.path !in existing
    ensures AdmitOne(env, prefix, Object(Filled(Described(i))), existing) == Ok(i)
  {
    ReadBack(i);
    KindRead(i.kind);
    AdmitReading(env, prefix, i, Filled(Described(i)), Text(KindText(i.kind)), existing);
  }

  lemma AdmitStep(env: Env, prefix: string, d: Document, ds: seq<Document>, item: Item, rest: seq<Item>,
                  existing: set<string>)
    requires AdmitOne(env, prefix, d, existing) == Ok(item)
    requires Admit(env, prefix, ds, existing + {item.path}) == Ok(rest)
    ensures Admit(env, prefix, [d] + ds, existing) == Ok([item] + rest)
  {
    assert ([d] + ds)[1..] == ds;
  }

  lemma {:induction false} Readmitted(env: Env, prefix: string, items: seq<Item>, existing: set<string>)
    requires GoodItems(env, prefix, items) && forall i :: 0 <= i < |items| ==> items[i].path !in existing
    ensures Admit(env, prefix, Objects(DescribedAll(items)), existing) == Ok(items)
    decreases |items|
  {
    if items != [] {
      var i, rest := items[0], items[1..];
      assert WellPlaced(env, prefix, items[0]);
      ReadmittedOne(env, prefix, i, existing);
      GoodRest(env, prefix, items);
      PathsStayNew(env, prefix, items, existing);
      Readmitted(env, prefix, rest, existing + {i.path});
      ReadmittedBefore(env, prefix, i, rest, existing);
      assert [i] + rest == items;
    }
  }

  lemma PathsStayNew(env: Env, prefix: string, items: seq<Item>, existing: set<string>)
    requires GoodItems(env, prefix, items) && items != [] && forall i :: 0 <= i < |items| ==> items[i].path !in existing
    ensures forall i :: 0 <= i < |items[1..]| ==> items[1..][i].path !in existing + {items[0].path}
  {}

  lemma ReadmittedBefore(env: Env, prefix: string, i: Item, rest: seq<Item>, existing: set<string>)
    requires AdmitOne(env, prefix, Object(Filled(Described(i))), existing) == Ok(i)
    requires Admit(env, prefix, Objects(DescribedAll(rest)), existing + {i.path}) == Ok(rest)
    ensures Admit(env, prefix, Objects(DescribedAll([i] + rest)), existing) == Ok([i] + rest)
  {
    AdmitStep(env, prefix, Object(Filled(Described(i))), Objects(DescribedAll(rest)), i, rest, existing);
    ObjectsUnfold(i, rest);
  }

  lemma GoodRest(env: Env, prefix: string, items: seq<Item>)
    requires items != [] && GoodItems(env, prefix, items)
    ensures GoodItems(env, prefix, items[1..])
  {
    forall i | 0 <= i < |items[1..]| ensures WellPlaced(env, prefix, items[1..][i]) {
      assert WellPlaced(env, prefix, items[i + 1]);
    }
  }

  lemma ObjectsUnfold(i: Item, rest: seq<Item>)
    ensures Objects(DescribedAll([i] + rest)) == [Object(Filled(Described(i)))] + Objects(DescribedAll(rest))
  {
    assert ([i] + rest)[1..] == rest;
    assert DescribedAll([i] + rest)[1..] == DescribedAll(rest);
  }

  lemma {:induction false} AllOneLine(items: seq<Item>)
    ensures (forall e :: e in DescribedAll(items) ==> OneLine(e)) <==>
      forall i :: 0 <= i < |items| ==> Printable(items[i])
  {
    if items != [] {
      AllOneLine(items[1..]);
      DescribedOneLine(items[0]);
      assert forall e :: e in DescribedAll(items) <==> e == Described(items[0]) || e in DescribedAll(items[1..]);
      assert forall i :: 0 <= i < |items| ==> items[i] == if i == 0 then items[0] else items[1..][i - 1];
    }
  }

  // ------------------------------------------------------------------ the endpoint

  function ItemsOf(s: seq<Listed>): (items: seq<Item>)
    ensures |items| == |s|
  {
    if s == [] then [] else [s[0].row.item] + ItemsOf(s[1..])
  }

  /** All of a job's items in path order. */
  function OrderedItems(rows: seq<Row>, j: nat): seq<Item> { ItemsOf(InOrder(rows, j)) }

  /** The items the manifest endpoint serves: one page with a limit of 100000, which is cut to 1000. */
  function ServedItems(rows: seq<Row>, j: nat): seq<Item> { ItemsOf(Page(rows, j, None, 100000).0) }

  function ServedManifest(rows: seq<Row>, j: nat): string { Serialize(DescribedAll(ServedItems(rows, j))) }

  /** `stream_entries`: the text is parsed, then its entries are added. */
  function StreamEntries(env: Env, t: Tables, tenant: string, k: nat, text: string): (Tables, Result<int, JobError>) {
    match ParseNdjson(text)
    case None => (t, Err(Unhandled))
    case Some(ds) => AddEntries(env, t, tenant, k, ds)
  }

  ghost predicate AllPrintable(items: seq<Item>) { forall i :: 0 <= i < |items| ==> Printable(items[i]) }

  lemma {:induction false} ItemsOfPrefix(s: seq<Listed>, n: nat)
    requires n <= |s|
    ensures ItemsOf(s[..n]) == ItemsOf(s)[..n]
    ensures forall i :: 0 <= i < |s| ==> ItemsOf(s)[i] == s[i].row.item
  {
    if s != [] {
      if n == 0 {
        ItemsOfPrefix(s[1..], 0);
      } else {
        ItemsOfPrefix(s[1..], n - 1);
        assert s[..n][0] == s[0] && s[..n][1..] == s[1..][..n - 1];
      }
    }
  }

  /** The served items are the first 1000 in path order. */
  lemma ServedPrefix(env: Env, t: Tables, j: nat)
    requires Inv(env, t) && j < |t.jobs|
    ensures |OrderedItems(t.rows, j)| == |Items(t.rows, j)|
    ensures ServedItems(t.rows, j) == OrderedItems(t.rows, j)[..Min(|Items(t.rows, j)|, 1000)]
  {
    var all := InOrder(t.rows, j);
    PathsApartAlways(env, t, j);
    NumberedItems(t.rows, j);
    DirectoryPages.Sorted(Numbered(t.rows, j));
    PageAt(t.rows, j, 0, None, 100000);
    var n := Min(|all|, 1000);
    assert all[0..n] == all[..n] && all[0..] == all;
    ItemsOfPrefix(all, n);
    ItemsOfPrefix(all, |all|);
    assert all[..|all|] == all;
  }

  /** The ordered items are the job's items. */
  lemma {:induction false} OrderedExact(rows: seq<Row>, j: nat)
    requires PathsApart(Numbered(rows, j))
    ensures forall x :: x in OrderedItems(rows, j) <==> x in Items(rows, j)
    ensures forall a, b :: 0 <= a < b < |OrderedItems(rows, j)| ==>
      OrderedItems(rows, j)[a].path != OrderedItems(rows, j)[b].path
  {
    var all, s, items := InOrder(rows, j), Numbered(rows, j), Items(rows, j);
    DirectoryPages.Sorted(s);
    NumberedItems(rows, j);
    ItemsOfPrefix(all, |all|);
    forall x ensures x in OrderedItems(rows, j) <==> x in items {
      if x in OrderedItems(rows, j) { ItemCarriedOver(all, OrderedItems(rows, j), s, items, x); }
      if x in items { ItemCarriedOver(s, items, all, OrderedItems(rows, j), x); }
    }
    OrderedApart(all, OrderedItems(rows, j));
  }

  /** `items` are those of the entries `s`. */
  ghost predicate ItemsFrom(s: seq<Listed>, items: seq<Item>) {
    |items| == |s| && forall i :: 0 <= i < |s| ==> items[i] == s[i].row.item
  }

  lemma ItemCarriedOver(s: seq<Listed>, items: seq<Item>, s': seq<Listed>, items': seq<Item>, x: Item)
    requires ItemsFrom(s, items) && ItemsFrom(s', items') && x in items && forall y :: y in s ==> y in s'
    ensures x in items'
  {
    var i :| 0 <= i < |items| && items[i] == x;
    assert s[i] in s;
    var p :| 0 <= p < |s'| && s'[p] == s[i];
    assert items'[p] == x;
  }

  lemma OrderedApart(all: seq<Listed>, ordered: seq<Item>)
    requires Ascending(DirectoryPages.ByPath(), all) && ItemsFrom(all, ordered)
    ensures forall a, b :: 0 <= a < b < |ordered| ==> ordered[a].path != ordered[b].path
  {
    PathsAscend(all);
    forall a, b | 0 <= a < b < |ordered| ensures ordered[a].path != ordered[b].path {
      assert LexLess(all[a].row.item.path, all[b].row.item.path);
      if ordered[a].path == ordered[b].path { LexAsymmetric(ordered[a].path, ordered[b].path); }
    }
  }

  lemma {:induction false} OrderedGood(env: Env, t: Tables, j: nat, n: nat)
    requires Inv(env, t) && j < |t.jobs| && n <= |OrderedItems(t.rows, j)|
    ensures GoodItems(env, t.jobs[j].prefix, OrderedItems(t.rows, j)[..n])
  {
    JobHolds(env, t, j);
    PathsApartAlways(env, t, j);
    OrderedExact(t.rows, j);
    AllPlaced(env, t.jobs[j].prefix, Items(t.rows, j), OrderedItems(t.rows, j)[..n], OrderedItems(t.rows, j));
  }

  lemma {:induction false} AllPlaced(env: Env, prefix: string, items: seq<Item>, some: seq<Item>, ordered: seq<Item>)
    requires GoodItems(env, prefix, items) && some <= ordered && forall x :: x in ordered ==> x in items
    requires forall a, b :: 0 <= a < b < |ordered| ==> ordered[a].path != ordered[b].path
    ensures GoodItems(env, prefix, some)
  {
    forall i | 0 <= i < |some| ensures WellPlaced(env, prefix, some[i]) {
      assert some[i] == ordered[i] && ordered[i] in items;
      var p :| 0 <= p < |items| && items[p] == some[i];
      assert WellPlaced(env, prefix, items[p]);
    }
  }

  lemma {:induction false} DescribedLength(items: seq<Item>)
    ensures |Objects(DescribedAll(items))| == |items|
  {
    if items != [] {
      DescribedLength(items[1..]);
      ObjectsUnfold(items[0], items[1..]);
      assert [items[0]] + items[1..] == items;
    }
  }

  lemma ParsedItems(items: seq<Item>)
    ensures ParseNdjson(Serialize(DescribedAll(items)))
      == if AllPrintable(items) then Some(Objects(DescribedAll(items))) else None
  {
    NdjsonRoundTrip(DescribedAll(items));
    AllOneLine(items);
  }

  lemma AddedItems(env: Env, t: Tables, tenant: string, k: nat, ds: seq<Document>, items: seq<Item>)
    requires Visible(t, tenant, k) && t.jobs[k].status.Open() && Items(t.rows, k) == []
    requires |ds| == |items| && Admit(env, t.jobs[k].prefix, ds, {}) == Ok(items)
    ensures var (t', r) := AddEntries(env, t, tenant, k, ds);
      if |items| > env.maximumEntries then r == Err(TooManyEntries) && t' == t
      else r == Ok(|items|) && Items(t'.rows, k) == items
  {
    assert PathSet([]) == {};
    ItemsGrow(t.rows, k, items, k);
    assert [] + items == items;
  }

  /** What streaming the text of well-placed items into an empty open job with their prefix does. */
  lemma StreamedItems(env: Env, t: Tables, tenant: string, k: nat, items: seq<Item>)
    requires Visible(t, tenant, k) && t.jobs[k].status.Open()
    requires Items(t.rows, k) == [] && GoodItems(env, t.jobs[k].prefix, items)
    ensures var (t', r) := StreamEntries(env, t, tenant, k, Serialize(DescribedAll(items)));
      if !AllPrintable(items) then r == Err(Unhandled) && t' == t
      else if |items| > env.maximumEntries then r == Err(TooManyEntries) && t' == t
      else r == Ok(|items|) && Items(t'.rows, k) == items
  {
    ParsedItems(items);
    Readmitted(env, t.jobs[k].prefix, items, {});
    DescribedLength(items);
    AddedItems(env, t, tenant, k, Objects(DescribedAll(items)), items);
  }

  /**
   * Served and streamed back: the manifest of job `j` streamed into a fresh job with the same prefix
   * recreates all of its rows, in path order, if and only if it has at most 1000 of them, no more than one
   * request may carry, and no path or fingerprint holds a raw line separator.
   */
  lemma ManifestReimports(env: Env, t: Tables, tenant: string, j: nat, k: nat)
    requires Inv(env, t) && j < |t.jobs| && Visible(t, tenant, k)
    requires t.jobs[k].status.Open() && Items(t.rows, k) == [] && t.jobs[k].prefix == t.jobs[j].prefix
    ensures var (t', r) := StreamEntries(env, t, tenant, k, ServedManifest(t.rows, j));
      var items := Items(t.rows, j);
      r.Ok? && Items(t'.rows, k) == OrderedItems(t.rows, j) <==>
        |items| <= 1000 && |items| <= env.maximumEntries && AllPrintable(items)
  {
    var items, ordered := Items(t.rows, j), OrderedItems(t.rows, j);
    ServedPrefix(env, t, j);
    var n := Min(|items|, 1000);
    OrderedGood(env, t, j, n);
    StreamedItems(env, t, tenant, k, ordered[..n]);
    if |items| <= 1000 {
      assert ordered[..n] == ordered;
      SamePrintable(env, t, j);
    }
  }

  lemma SamePrintable(env: Env, t: Tables, j: nat)
    requires Inv(env, t) && j < |t.jobs|
    ensures AllPrintable(OrderedItems(t.rows, j)) <==> AllPrintable(Items(t.rows, j))
  {
    PathsApartAlways(env, t, j);
    OrderedExact(t.rows, j);
    BothPrintable(OrderedItems(t.rows, j), Items(t.rows, j));
    BothPrintable(Items(t.rows, j), OrderedItems(t.rows, j));
  }

  lemma {:induction false} BothPrintable(a: seq<Item>, b: seq<Item>)
    requires forall x :: x in b ==> x in a
    ensures AllPrintable(a) ==> AllPrintable(b)
  {
    if AllPrintable(a) {
      forall i | 0 <= i < |b| ensures Printable(b[i]) {
        assert b[i] in a;
        var p :| 0 <= p < |a| && a[p] == b[i];
      }
    }
  }

  /** A larger job is served without its last entries: the copy silently holds the first 1000 alone. */
  lemma ManifestTruncates(env: Env, t: Tables, tenant: string, j: nat, k: nat)
    requires Inv(env, t) && j < |t.jobs| && Visible(t, tenant, k) && |Items(t.rows, j)| > 1000
    requires t.jobs[k].status.Open() && Items(t.rows, k) == [] && t.jobs[k].prefix == t.jobs[j].prefix
    requires 1000 <= env.maximumEntries && AllPrintable(Items(t.rows, j))
    ensures var (t', r) := StreamEntries(env, t, tenant, k, ServedManifest(t.rows, j));
      && |OrderedItems(t.rows, j)| == |Items(t.rows, j)|
      && r == Ok(1000) && Items(t'.rows, k) == OrderedItems(t.rows, j)[..1000]
  {
    ServedPrefix(env, t, j);
    OrderedGood(env, t, j, 1000);
    StreamedItems(env, t, tenant, k, OrderedItems(t.rows, j)[..1000]);
    SamePrintable(env, t, j);
  }

  // ------------------------------------------------------------------ a job with 1001 entries

  /** A server with default limits, but room for 1001 entries in one request; NFC leaves ASCII alone. */
  function PlainEnv(sha: string -> string): Env {
    Env(s => s, sha, true, {"b"}, {"reject"}, 1001, 64, 1024)
  }

  /** Files named by the numbers a, a + 1, ... */
  function NumberedDocs(a: nat, n: nat): (ds: seq<Document>)
    ensures |ds| == n
    decreases n
  {
    if n == 0 then [] else [Object(map[PATH := Text(Decimal.ToDec(a))])] + NumberedDocs(a + 1, n - 1)
  }

  function NumberedItem(a: nat): Item {
    var name := Decimal.ToDec(a);
    Item(File, name, name, name, 0, None, None)
  }

  function NumberedItemList(a: nat, n: nat): (items: seq<Item>)
    ensures |items| == n && forall i :: 0 <= i < n ==> items[i] == NumberedItem(a + i)
    decreases n
  {
    if n == 0 then [] else [NumberedItem(a)] + NumberedItemList(a + 1, n - 1)
  }

  lemma {:induction false} DigitsUtf8(s: string)
    requires Decimal.AllDigits(s)
    ensures Paths.Utf8Length(s) == |s| && Paths.ToPosix(s) == s && !Paths.HasControl(s) && T.Split(s, '/') == [s]
  {
    if s != [] {
      DigitsUtf8(s[1..]);
    }
  }

  lemma DigitsSafe(s: string)
    requires Decimal.AllDigits(s) && s != []
    ensures s !in Paths.UNSAFE && s != "" && s != "." && s != ".." && '\0' !in s
    ensures !("/" <= s) && !(|s| >= 2 && s[1] == ':')
  {
    assert Decimal.IsDigit(s[0]);
    assert forall u :: u in Paths.UNSAFE ==> |u| == 1 && !Decimal.IsDigit(u[0]);
  }

  lemma NumberPath(sha: string -> string, a: nat)
    requires a <= 1000
    ensures Paths.ServerNormalize(PlainEnv(sha).nfc, Decimal.ToDec(a), 64, 1024) == Ok(Decimal.ToDec(a))
  {
    var s := Decimal.ToDec(a);
    DigitsUtf8(s);
    DigitsSafe(s);
    assert Decimal.Pow10(4) == 10_000;
    Decimal.DecLength(a, 4);
    OneSegment(s);
  }

  lemma OneSegment(s: string)
    requires T.Split(s, '/') == [s] && s !in Paths.UNSAFE
    requires s != "" && s != "." && s != ".." && Paths.Utf8Length(s) <= 1024
    requires !("/" <= s) && !(|s| >= 2 && s[1] == ':')
    ensures Paths.NormalizeNfc(s, Paths.UNSAFE, 64, 1024) == Ok(s)
  {
    var one := [s];
    assert one[1..] == [];
    assert Paths.Kept(one, Paths.UNSAFE) == Ok([s] + []);
  }

  lemma NumberAdmitted(sha: string -> string, a: nat, existing: set<string>)
    requires a <= 1000 && Decimal.ToDec(a) !in existing
    ensures AdmitOne(PlainEnv(sha), "", Object(map[PATH := Text(Decimal.ToDec(a))]), existing) == Ok(NumberedItem(a))
  {
    NumberPath(sha, a);
    KeysDiffer();
    KindRead(File);
  }

  lemma {:induction false} NumbersAdmitted(sha: string -> string, a: nat, n: nat, existing: set<string>)
    requires a + n <= 1001 && forall i :: a <= i <= 1000 ==> Decimal.ToDec(i) !in existing
    ensures Admit(PlainEnv(sha), "", NumberedDocs(a, n), existing) == Ok(NumberedItemList(a, n))
    decreases n
  {
    if n > 0 {
      NumberAdmitted(sha, a, existing);
      forall i | a + 1 <= i <= 1000 ensures Decimal.ToDec(i) !in existing + {Decimal.ToDec(a)} {
        Decimal.DecimalRoundTrip(i);
        Decimal.DecimalRoundTrip(a);
      }
      NumbersAdmitted(sha, a + 1, n - 1, existing + {Decimal.ToDec(a)});
      AdmitStep(PlainEnv(sha), "", Object(map[PATH := Text(Decimal.ToDec(a))]), NumberedDocs(a + 1, n - 1),
                NumberedItem(a), NumberedItemList(a + 1, n - 1), existing);
    }
  }

  /** Create a job, add 1001 entries, create a second job. */
  function LongRun(): seq<Request> {
    [Create("t", "b", "", "reject"), Add("t", 0, NumberedDocs(0, 1001)), Create("t", "b", "", "reject")]
  }

  lemma RunOfThree(env: Env, t: Tables, rs: seq<Request>, t1: Tables, t2: Tables, t3: Tables)
    requires |rs| == 3 && Admissible(t, rs[0]) && Admissible(t1, rs[1]) && Admissible(t2, rs[2])
    requires t1 == Step(env, t, rs[0]).0 && t2 == Step(env, t1, rs[1]).0 && t3 == Step(env, t2, rs[2]).0
    ensures Run(env, t, rs, t3)
  {
    var r1, r2, r3 := rs[1..], rs[1..][1..], rs[1..][1..][1..];
    assert r1[0] == rs[1] && r2[0] == rs[2] && r3 == [];
    assert Run(env, t3, r3, t3);
    assert Run(env, t2, r2, t3);
    assert Run(env, t1, r1, t3);
  }

  lemma FirstJob(sha: string -> string) returns (t: Tables)
    ensures t == CreateJob(PlainEnv(sha), EMPTY, "t", "b", "", "reject").0
    ensures t == Tables([Job("t", "", Created, 0, 0, 0, 0, 0, 0, 0, None)], [], 1)
  {
    t := CreateJob(PlainEnv(sha), EMPTY, "t", "b", "", "reject").0;
  }

  lemma LongAdd(sha: string -> string, t1: Tables, ds: seq<Document>, items: seq<Item>) returns (t: Tables)
    requires t1 == Tables([Job("t", "", Created, 0, 0, 0, 0, 0, 0, 0, None)], [], 1)
    requires |ds| == 1001 == |items| && Admit(PlainEnv(sha), "", ds, {}) == Ok(items)
    ensures t == AddEntries(PlainEnv(sha), t1, "t", 0, ds).0
    ensures |t.jobs| == 1 && t.jobs[0].tenant == "t" && t.jobs[0].prefix == ""
    ensures Items(t.rows, 0) == items && Items(t.rows, 1) == []
  {
    t := AddEntries(PlainEnv(sha), t1, "t", 0, ds).0;
    assert Items(t1.rows, 0) == [] && Items(t1.rows, 1) == [];
    AddedItems(PlainEnv(sha), t1, "t", 0, ds, items);
    AddKeepsOthers(PlainEnv(sha), t1, "t", 0, ds, 1);
  }

  lemma AddKeepsOthers(env: Env, t: Tables, tenant: string, j: nat, ds: seq<Document>, k: nat)
    requires AddEntries(env, t, tenant, j, ds).1.Ok? && k != j
    ensures j < |t.jobs| && var t' := AddEntries(env, t, tenant, j, ds).0;
      && |t'.jobs| == |t.jobs| && t'.jobs[j].tenant == t.jobs[j].tenant && t'.jobs[j].prefix == t.jobs[j].prefix
      && Items(t'.rows, k) == Items(t.rows, k)
  {
    ItemsGrow(t.rows, j, Admit(env, t.jobs[j].prefix, ds, PathSet(Items(t.rows, j))).value, k);
  }

  lemma LongJob(sha: string -> string) returns (t: Tables)
    ensures Run(PlainEnv(sha), EMPTY, LongRun(), t)
    ensures |t.jobs| == 2 && t.jobs[0].tenant == "t" == t.jobs[1].tenant && t.jobs[0].prefix == "" == t.jobs[1].prefix
    ensures t.jobs[1].status == Created && Items(t.rows, 0) == NumberedItemList(0, 1001) && Items(t.rows, 1) == []
  {
    var ds, items := NumberedDocs(0, 1001), NumberedItemList(0, 1001);
    NumbersAdmitted(sha, 0, 1001, {});
    var t1 := FirstJob(sha);
    var t2 := LongAdd(sha, t1, ds, items);
    t := CreateJob(PlainEnv(sha), t2, "t", "b", "", "reject").0;
    RunOfThree(PlainEnv(sha), EMPTY, LongRun(), t1, t2, t);
  }

  /** The failing input: two jobs reached from the empty tables; of the 1001 entries the copy gets 1000. */
  lemma LongManifestLosesAnEntry(sha: string -> string) returns (t: Tables)
    ensures Run(PlainEnv(sha), EMPTY, LongRun(), t) && |Items(t.rows, 0)| == 1001
    ensures var (t', r) := StreamEntries(PlainEnv(sha), t, "t", 1, ServedManifest(t.rows, 0));
      r == Ok(1000) && |Items(t'.rows, 1)| == 1000
  {
    t := LongJob(sha);
    ReachableInv(PlainEnv(sha), LongRun(), t);
    forall i | 0 <= i < 1001 ensures Printable(Items(t.rows, 0)[i]) {
      assert Decimal.AllDigits(Items(t.rows, 0)[i].relativePath);
    }
    ManifestTruncates(PlainEnv(sha), t, "t", 0, 1);
  }
}
