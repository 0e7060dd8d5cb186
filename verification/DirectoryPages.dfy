/** Pages of a job's entries in path order, and the walk that follows the cursor from page to page. */
module DirectoryPages {
  import opened Basics
  import opened Sorting
  import opened Directory

  /** An entry row with its id. */
  datatype Listed = Listed(id: nat, row: Row)

  function Numbered(rows: seq<Row>, j: nat): seq<Listed> {
    if rows == [] then []
    else
      var n := |rows| - 1;
      Numbered(rows[..n], j) + if rows[n].job == j then [Listed(n, rows[n])] else []
  }

  function ByPath(): (Listed, Listed) -> bool { (x: Listed, y: Listed) => LexLess(x.row.item.path, y.row.item.path) }

  function Past(s: seq<Listed>, cursor: string): seq<Listed> {
    if s == [] then [] else (if LexLess(cursor, s[0].row.item.path) then [s[0]] else []) + Past(s[1..], cursor)
  }

  function PageSize(limit: int): (n: nat)
    ensures 1 <= n <= 1000 && (1 <= limit <= 1000 ==> n == limit)
  {
    Min(Max(limit, 1), 1000)
  }

  /** `list_entries`: at most `limit` rows after the cursor in path order, and the next cursor if there are more. */
  function Page(rows: seq<Row>, j: nat, cursor: Option<string>, limit: int): (seq<Listed>, Option<string>) {
    Cut(SortBy(ByPath(), Matching(Numbered(rows, j), cursor)), PageSize(limit))
  }

  function Matching(s: seq<Listed>, cursor: Option<string>): seq<Listed> {
    if cursor.GetOr("") != "" then Past(s, cursor.value) else s
  }

  function Cut(found: seq<Listed>, n: nat): (seq<Listed>, Option<string>)
    requires n >= 1
  {
    var fetched := found[..Min(|found|, n + 1)];
    if |fetched| > n then (fetched[..n], Some(fetched[n - 1].row.item.path)) else (fetched, None)
  }

  /** All of a job's entries in path order. */
  function InOrder(rows: seq<Row>, j: nat): seq<Listed> { SortBy(ByPath(), Numbered(rows, j)) }

  // ------------------------------------------------------------------ rows and items

  lemma {:induction false} NumberedItems(rows: seq<Row>, j: nat)
    ensures |Numbered(rows, j)| == |Items(rows, j)|
    ensures forall i :: 0 <= i < |Items(rows, j)| ==> Numbered(rows, j)[i].row.item == Items(rows, j)[i]
  {
    if rows != [] { NumberedItems(rows[..|rows| - 1], j); }
  }

  /** The listing holds exactly the job's rows, under their ids. */
  lemma {:induction false} NumberedExact(rows: seq<Row>, j: nat, x: Listed)
    ensures x in Numbered(rows, j) <==> x.id < |rows| && rows[x.id] == x.row && x.row.job == j
  {
    if rows != [] {
      NumberedExact(rows[..|rows| - 1], j, x);
    }
  }

  ghost predicate PathsApart(s: seq<Listed>) {
    && (forall i, k :: 0 <= i < k < |s| ==> s[i].row.item.path != s[k].row.item.path)
    && (forall i :: 0 <= i < |s| ==> s[i].row.item.path != "")
  }

  lemma OrderIsStrictTotal(s: seq<Listed>, all: set<Listed>)
    requires PathsApart(s) && forall x :: x in all ==> x in s
    ensures StrictOn(ByPath(), all) && TotalOn(ByPath(), all)
  {
    var less := ByPath();
    forall x, y | x in all && y in all && less(x, y) ensures !less(y, x) {
      LexAsymmetric(x.row.item.path, y.row.item.path);
    }
    forall x, y, z | x in all && y in all && z in all && less(x, y) && less(y, z) ensures less(x, z) {
      LexTransitive(x.row.item.path, y.row.item.path, z.row.item.path);
    }
    forall x, y | x in all && y in all && x != y ensures less(x, y) || less(y, x) {
      assert x in s && y in s;
      var i :| 0 <= i < |s| && s[i] == x;
      var k :| 0 <= k < |s| && s[k] == y;
      LexTotal(x.row.item.path, y.row.item.path);
    }
  }

  lemma PastExact(s: seq<Listed>, cursor: string)
    ensures forall x :: x in Past(s, cursor) <==> x in s && LexLess(cursor, x.row.item.path)
    ensures PathsApart(s) ==> PathsApart(Past(s, cursor))
  {
    forall x ensures x in Past(s, cursor) <==> x in s && LexLess(cursor, x.row.item.path) {
      PastHolds(s, cursor, x);
    }
    if PathsApart(s) { PastApart(s, cursor); }
  }

  lemma {:induction false} PastHolds(s: seq<Listed>, cursor: string, x: Listed)
    ensures x in Past(s, cursor) <==> x in s && LexLess(cursor, x.row.item.path)
  {
    if s != [] {
      PastHolds(s[1..], cursor, x);
      assert x in s <==> x == s[0] || x in s[1..];
    }
  }

  lemma {:induction false} PastApart(s: seq<Listed>, cursor: string)
    requires PathsApart(s)
    ensures PathsApart(Past(s, cursor))
  {
    if s != [] {
      var past := Past(s[1..], cursor);
      PastApart(s[1..], cursor);
      forall i | 0 <= i < |past| ensures past[i].row.item.path != s[0].row.item.path {
        PastHolds(s[1..], cursor, past[i]);
        var k :| 0 <= k < |s[1..]| && s[1..][k] == past[i];
        assert s[k + 1] == past[i];
      }
      ApartFirst(s[0], past);
    }
  }

  lemma ApartFirst(x: Listed, s: seq<Listed>)
    requires PathsApart(s) && x.row.item.path != ""
    requires forall i :: 0 <= i < |s| ==> s[i].row.item.path != x.row.item.path
    ensures PathsApart([x] + s)
  {}

  lemma ApartIsDistinct(s: seq<Listed>)
    requires PathsApart(s)
    ensures Distinct(s)
  {}

  lemma Sorted(s: seq<Listed>)
    requires PathsApart(s)
    ensures Ascending(ByPath(), SortBy(ByPath(), s))
    ensures forall x :: x in SortBy(ByPath(), s) <==> x in s
    ensures |SortBy(ByPath(), s)| == |s|
  {
    var less, all := ByPath(), Elements(s);
    ApartIsDistinct(s);
    OrderIsStrictTotal(s, all);
    SortedBy(less, s);
  }

  lemma SortedBy(less: (Listed, Listed) -> bool, s: seq<Listed>)
    requires StrictOn(less, Elements(s)) && TotalOn(less, Elements(s)) && Distinct(s)
    ensures Ascending(less, SortBy(less, s))
    ensures forall x :: x in SortBy(less, s) <==> x in s
    ensures |SortBy(less, s)| == |s|
  {
    SortByAscending(less, s);
    SameElements(SortBy(less, s), s);
  }

  /** Filtering by a cursor that is the path of the k-th entry and sorting is dropping k + 1 entries. */
  lemma PastIsSuffix(s: seq<Listed>, k: nat)
    requires PathsApart(s) && 0 < k <= |s|
    ensures var all := SortBy(ByPath(), s);
      |all| == |s| && SortBy(ByPath(), Past(s, all[k - 1].row.item.path)) == all[k..]
  {
    var all := SortBy(ByPath(), s);
    Sorted(s);
    var cursor := all[k - 1].row.item.path;
    var past := Past(s, cursor);
    PastExact(s, cursor);
    Sorted(past);
    var found := SortBy(ByPath(), past);
    OrderIsStrictTotal(s, Elements(found));
    forall x ensures x in found <==> x in all[k..] {
      SuffixExact(all, k, x);
    }
    AscendingUnique(ByPath(), found, all[k..]);
  }

  lemma SuffixExact(all: seq<Listed>, k: nat, x: Listed)
    requires Ascending(ByPath(), all) && 0 < k <= |all|
    ensures x in all[k..] <==> x in all && LexLess(all[k - 1].row.item.path, x.row.item.path)
  {
    var less := ByPath();
    if x in all[k..] {
      var i :| k <= i < |all| && all[i] == x;
      assert less(all[k - 1], all[i]);
    }
    if x in all && LexLess(all[k - 1].row.item.path, x.row.item.path) {
      var i :| 0 <= i < |all| && all[i] == x;
      if i < k {
        if i < k - 1 { assert less(all[i], all[k - 1]); }
        LexAsymmetric(all[k - 1].row.item.path, x.row.item.path);
        assert false;
      }
      assert all[k..][i - k] == x;
    }
  }

  /** Where a walk stands after k entries: at the start, or at the path of the last one seen. */
  ghost predicate CursorAt(all: seq<Listed>, k: nat, cursor: Option<string>) {
    k <= |all| && if k == 0 then cursor == None else cursor == Some(all[k - 1].row.item.path)
  }

  /** The next `n` entries after the first `k`, and the path of the last of them if more remain. */
  function NextRun(all: seq<Listed>, k: nat, n: nat): (seq<Listed>, Option<string>)
    requires k <= |all| && n >= 1
  {
    if |all| - k > n then (all[k..k + n], Some(all[k + n - 1].row.item.path)) else (all[k..], None)
  }

  /** The page at a cursor is the next run of entries in path order, and its next cursor stands after them. */
  lemma PageAt(rows: seq<Row>, j: nat, k: nat, cursor: Option<string>, limit: int)
    requires PathsApart(Numbered(rows, j)) && CursorAt(InOrder(rows, j), k, cursor)
    ensures Page(rows, j, cursor, limit) == NextRun(InOrder(rows, j), k, PageSize(limit))
  {
    var s := Numbered(rows, j);
    FoundAt(s, k, cursor);
    CutSuffix(SortBy(ByPath(), s), k, PageSize(limit));
  }

  lemma FoundAt(s: seq<Listed>, k: nat, cursor: Option<string>)
    requires PathsApart(s) && CursorAt(SortBy(ByPath(), s), k, cursor)
    ensures |SortBy(ByPath(), s)| == |s|
    ensures SortBy(ByPath(), Matching(s, cursor)) == SortBy(ByPath(), s)[k..]
  {
    var all := SortBy(ByPath(), s);
    Sorted(s);
    if k > 0 {
      assert all[k - 1] in all;
      PastIsSuffix(s, k);
    } else {
      assert all[0..] == all;
    }
  }

  lemma CutSuffix(all: seq<Listed>, k: nat, n: nat)
    requires k <= |all| && n >= 1
    ensures Cut(all[k..], n) == NextRun(all, k, n)
  {
    var found := all[k..];
    if |found| > n {
      assert found[..n + 1][..n] == all[k..k + n];
    } else {
      assert found[..Min(|found|, n + 1)] == found;
    }
  }

  // ------------------------------------------------------------------ what a page is to a caller

  /** A row of job `j` that a cursor has not passed yet. */
  ghost predicate Remaining(rows: seq<Row>, j: nat, cursor: Option<string>, x: Listed) {
    && x.id < |rows| && rows[x.id] == x.row && x.row.job == j
    && (cursor.GetOr("") == "" || LexLess(cursor.value, x.row.item.path))
  }

  /**
   * A page: rows of the job past the cursor in strictly ascending path order, at most the page size, with
   * none skipped; there is a next cursor exactly when rows remain, and it is the last path of the page.
   */
  ghost predicate IsPage(rows: seq<Row>, j: nat, cursor: Option<string>, limit: int, page: seq<Listed>,
                         next: Option<string>)
  {
    && |page| <= Min(Max(limit, 1), 1000)
    && (forall x :: x in page ==> Remaining(rows, j, cursor, x))
    && (forall a, b :: 0 <= a < b < |page| ==> LexLess(page[a].row.item.path, page[b].row.item.path))
    && (forall x, y :: Remaining(rows, j, cursor, x) && x !in page && y in page ==>
          LexLess(y.row.item.path, x.row.item.path))
    && (next.Some? <==> exists x :: Remaining(rows, j, cursor, x) && x !in page)
    && (next.Some? ==> |page| == Min(Max(limit, 1), 1000) && next.value == page[|page| - 1].row.item.path)
  }

  lemma MatchingExact(rows: seq<Row>, j: nat, cursor: Option<string>, x: Listed)
    ensures x in Matching(Numbered(rows, j), cursor) <==> Remaining(rows, j, cursor, x)
  {
    NumberedExact(rows, j, x);
    if cursor.GetOr("") != "" { PastExact(Numbered(rows, j), cursor.value); }
  }

  lemma {:induction false} PrefixBefore(found: seq<Listed>, k: nat, x: Listed, y: Listed)
    requires Ascending(ByPath(), found) && k <= |found| && x in found && x !in found[..k] && y in found[..k]
    ensures LexLess(y.row.item.path, x.row.item.path)
  {
    var i :| 0 <= i < |found| && found[i] == x;
    var a :| 0 <= a < k && found[a] == y;
    assert forall b :: 0 <= b < k ==> found[b] in found[..k];
    assert ByPath()(found[a], found[i]);
  }

  lemma {:induction false} FirstLeftOver(found: seq<Listed>, k: nat)
    requires Ascending(ByPath(), found) && k < |found|
    ensures found[k] in found && found[k] !in found[..k]
  {
    if found[k] in found[..k] {
      var i :| 0 <= i < k && found[i] == found[k];
      assert ByPath()(found[i], found[k]);
      LexAsymmetric(found[i].row.item.path, found[k].row.item.path);
    }
  }

  lemma {:induction false} PathsAscend(found: seq<Listed>)
    requires Ascending(ByPath(), found)
    ensures forall a, b :: 0 <= a < b < |found| ==> LexLess(found[a].row.item.path, found[b].row.item.path)
  {
    forall a, b | 0 <= a < b < |found| ensures LexLess(found[a].row.item.path, found[b].row.item.path) {
      assert ByPath()(found[a], found[b]);
    }
  }

  lemma {:induction false} CutMeans(rows: seq<Row>, j: nat, cursor: Option<string>, limit: int, found: seq<Listed>)
    requires forall x :: x in found <==> Remaining(rows, j, cursor, x)
    requires Ascending(ByPath(), found)
    ensures IsPage(rows, j, cursor, limit, Cut(found, PageSize(limit)).0, Cut(found, PageSize(limit)).1)
  {
    var n := PageSize(limit);
    var k := Min(|found|, n);
    var page := found[..k];
    assert Cut(found, n).0 == page by { CutSuffix(found, 0, n); assert found[0..] == found; }
    PathsAscend(found);
    forall x, y | Remaining(rows, j, cursor, x) && x !in page && y in page
      ensures LexLess(y.row.item.path, x.row.item.path) {
      PrefixBefore(found, k, x, y);
    }
    if |found| > n {
      FirstLeftOver(found, n);
      assert Remaining(rows, j, cursor, found[n]);
    } else {
      assert page == found;
    }
  }

  /** Every page the listing computes is one. */
  lemma PageMeans(rows: seq<Row>, j: nat, cursor: Option<string>, limit: int)
    requires PathsApart(Numbered(rows, j))
    ensures IsPage(rows, j, cursor, limit, Page(rows, j, cursor, limit).0, Page(rows, j, cursor, limit).1)
  {
    var s := Matching(Numbered(rows, j), cursor);
    if cursor.GetOr("") != "" { PastExact(Numbered(rows, j), cursor.value); }
    Sorted(s);
    forall x ensures x in SortBy(ByPath(), s) <==> Remaining(rows, j, cursor, x) {
      MatchingExact(rows, j, cursor, x);
    }
    CutMeans(rows, j, cursor, limit, SortBy(ByPath(), s));
  }
}
