/** The file listing: the composed ordering, and offset pages of it. */
module Listing {
  import opened Basics
  import opened Sorting

  datatype Status = Active | Deleted

  /** The columns of a file row that the listing reads. */
  datatype Row = Row(id: int, tenant: string, bucket: string, objectKey: string, size: int, contentType: Option<string>,
                     status: Status, expiresAt: Option<int>, createdAt: int)

  /** A column value as the database compares it. */
  datatype Cell = Null | Number(n: int) | Text(s: string)

  function TextCell(s: Option<string>): Cell { if s.None? then Null else Text(s.value) }
  function NumberCell(n: Option<int>): Cell { if n.None? then Null else Number(n.value) }

  /** The column a field sorts by; an unknown field sorts by the object key. */
  function Column(field: string, r: Row): Cell {
    if field == "bucket" then Text(r.bucket)
    else if field == "size_bytes" then Number(r.size)
    else if field == "content_type" then TextCell(r.contentType)
    else if field == "status" then Text(if r.status == Active then "active" else "deleted")
    else if field == "expires_at" then NumberCell(r.expiresAt)
    else if field == "created_at" then Number(r.createdAt)
    else Text(r.objectKey)
  }

  function NormalizeField(orderBy: string): string { if orderBy == "name" then "object_key" else orderBy }

  function Descending(field: string, order: string): bool {
    if order == "asc" || order == "desc" then order == "desc" else field == "created_at"
  }

  /** Null cells come last for expires_at; for other columns PostgreSQL treats null as largest, SQLite as smallest. */
  function NullsLast(field: string, descending: bool, postgres: bool): bool {
    field == "expires_at" || (postgres != descending)
  }

  /** How a query orders and filters; `like` is the database's LIKE match against the prefix pattern. */
  datatype Query = Query(tenant: string, bucket: Option<string>, like: string -> bool, status: Option<Status>,
                         orderBy: string, order: string, postgres: bool)
  {
    function Field(): string { NormalizeField(orderBy) }
    function Cell(r: Row): Cell { Column(Field(), r) }
    predicate Matches(r: Row) {
      r.tenant == tenant && (bucket.Some? ==> r.bucket == bucket.value)
      && like(r.objectKey) && (status.Some? ==> r.status == status.value)
    }
    predicate CellBefore(a: Cell, b: Cell) {
      if a == b then false
      else if a.Null? then !NullsLast(Field(), Descending(Field(), order), postgres)
      else if b.Null? then NullsLast(Field(), Descending(Field(), order), postgres)
      else if Descending(Field(), order) then ValueBefore(b, a)
      else ValueBefore(a, b)
    }
    /** ORDER BY the field, then the object key unless that is the field already, then the id. */
    predicate Before(x: Row, y: Row) {
      || CellBefore(Cell(x), Cell(y))
      || (Cell(x) == Cell(y) &&
          if Field() == "object_key" then x.id < y.id
          else LexLess(x.objectKey, y.objectKey) || (x.objectKey == y.objectKey && x.id < y.id))
    }
  }

  /** Two non-null values of one column. */
  predicate ValueBefore(a: Cell, b: Cell) {
    match (a, b)
    case (Number(m), Number(n)) => m < n
    case (Text(s), Text(t)) => LexLess(s, t)
    case (Number(_), Text(_)) => true
    case _ => false
  }

  function Select(q: Query, table: seq<Row>): seq<Row> {
    if table == [] then [] else (if q.Matches(table[0]) then [table[0]] else []) + Select(q, table[1..])
  }

  function Ordered(q: Query, table: seq<Row>): seq<Row> {
    SortBy((x, y) => q.Before(x, y), Select(q, table))
  }

  /** `list_files`: one page and the total; `table` is the table in whatever order it is scanned. */
  function ListFiles(q: Query, table: seq<Row>, offset: nat, limit: nat): (seq<Row>, nat) {
    (Window(Ordered(q, table), offset, limit), |Select(q, table)|)
  }

  function Window(s: seq<Row>, offset: nat, limit: nat): seq<Row> {
    if offset >= |s| then [] else s[offset..Min(offset + limit, |s|)]
  }

  // ------------------------------------------------------------------ the ordering

  lemma ValueStrict(a: Cell, b: Cell, c: Cell)
    requires !a.Null? && !b.Null? && !c.Null?
    ensures ValueBefore(a, b) ==> !ValueBefore(b, a)
    ensures ValueBefore(a, b) && ValueBefore(b, c) ==> ValueBefore(a, c)
    ensures a == b || ValueBefore(a, b) || ValueBefore(b, a)
    ensures !ValueBefore(a, a)
  {
    if a.Text? && b.Text? {
      LexTotal(a.s, b.s);
      if LexLess(a.s, b.s) { LexAsymmetric(a.s, b.s); }
      if c.Text? && LexLess(a.s, b.s) && LexLess(b.s, c.s) { LexTransitive(a.s, b.s, c.s); }
    }
    if a.Text? && LexLess(a.s, a.s) { LexAsymmetric(a.s, a.s); }
  }

  lemma CellStrict(q: Query, a: Cell, b: Cell, c: Cell)
    ensures q.CellBefore(a, b) ==> !q.CellBefore(b, a)
    ensures q.CellBefore(a, b) && q.CellBefore(b, c) ==> q.CellBefore(a, c)
    ensures a == b || q.CellBefore(a, b) || q.CellBefore(b, a)
  {
    if !a.Null? && !b.Null? && !c.Null? {
      ValueStrict(a, b, c);
      ValueStrict(b, a, c);
      ValueStrict(c, b, a);
      ValueStrict(a, c, b);
    } else if !a.Null? && !b.Null? {
      ValueStrict(a, b, b);
      ValueStrict(b, a, a);
    }
  }

  /** Ties broken by key and id. */
  lemma BeforeStrict(q: Query, x: Row, y: Row, z: Row)
    ensures q.Before(x, y) ==> !q.Before(y, x)
    ensures q.Before(x, y) && q.Before(y, z) ==> q.Before(x, z)
    ensures x.id != y.id ==> q.Before(x, y) || q.Before(y, x)
  {
    CellStrict(q, q.Cell(x), q.Cell(y), q.Cell(z));
    KeyStrict(x.objectKey, y.objectKey, z.objectKey);
  }

  lemma KeyStrict(x: string, y: string, z: string)
    ensures LexLess(x, y) ==> !LexLess(y, x)
    ensures LexLess(x, y) && LexLess(y, z) ==> LexLess(x, z)
    ensures x == y || LexLess(x, y) || LexLess(y, x)
    ensures !LexLess(x, x)
  {
    LexTotal(x, y);
    if LexLess(x, y) { LexAsymmetric(x, y); }
    if LexLess(x, y) && LexLess(y, z) { LexTransitive(x, y, z); }
    if LexLess(x, x) { LexAsymmetric(x, x); }
  }

  /**
   * For every field, direction and database the composed ordering is a strict total order on rows with
   * distinct ids.
   */
  lemma OrderingIsStrictTotal(q: Query, rows: set<Row>)
    requires forall x, y :: x in rows && y in rows && x.id == y.id ==> x == y
    ensures StrictOn((x, y) => q.Before(x, y), rows) && TotalOn((x, y) => q.Before(x, y), rows)
  {
    forall x, y | x in rows && y in rows && q.Before(x, y) ensures !q.Before(y, x) {
      BeforeStrict(q, x, y, y);
    }
    forall x, y, z | x in rows && y in rows && z in rows && q.Before(x, y) && q.Before(y, z) ensures q.Before(x, z) {
      BeforeStrict(q, x, y, z);
    }
    forall x, y | x in rows && y in rows && x != y ensures q.Before(x, y) || q.Before(y, x) {
      BeforeStrict(q, x, y, y);
    }
  }

  // ------------------------------------------------------------------ selection and sorting

  ghost predicate DistinctIds(table: seq<Row>) {
    forall i, j :: 0 <= i < j < |table| ==> table[i].id != table[j].id
  }

  lemma {:induction false} SelectExact(q: Query, table: seq<Row>)
    ensures forall r :: r in Select(q, table) <==> r in table && q.Matches(r)
    ensures DistinctIds(table) ==> Distinct(Select(q, table))
  {
    if table != [] {
      SelectExact(q, table[1..]);
      assert forall r :: r in table <==> r == table[0] || r in table[1..];
      if DistinctIds(table) {
        assert forall r :: r in table[1..] ==> r.id != table[0].id;
      }
    }
  }

  lemma {:induction false} SelectConcat(q: Query, a: seq<Row>, b: seq<Row>)
    ensures Select(q, a + b) == Select(q, a) + Select(q, b)
  {
    if a == [] {
      assert a + b == b;
    } else {
      SelectConcat(q, a[1..], b);
      assert (a + b)[1..] == a[1..] + b;
    }
  }

  lemma SelectWithout(q: Query, s: seq<Row>, i: nat)
    requires i < |s|
    ensures multiset(Select(q, s)) == multiset(Select(q, s[..i] + s[i + 1..])) + multiset(Select(q, [s[i]]))
  {
    var l, x, r := s[..i], [s[i]], s[i + 1..];
    Taken(s, i);
    SelectConcat(q, l, x + r);
    SelectConcat(q, x, r);
    SelectConcat(q, l, r);
  }

  /** The scan order of the table does not change which rows are selected, or how often. */
  lemma {:induction false} SelectPermuted(q: Query, a: seq<Row>, b: seq<Row>)
    requires multiset(a) == multiset(b)
    ensures multiset(Select(q, a)) == multiset(Select(q, b))
    decreases |a|
  {
    SameElements(a, b);
    if a != [] {
      var x := a[0];
      assert x in b;
      var k :| 0 <= k < |b| && b[k] == x;
      var a', b' := a[..0] + a[1..], b[..k] + b[k + 1..];
      SameTaken(a, 0, b, k);
      SelectPermuted(q, a', b');
      SelectPair(q, a, 0, a', b, k, b');
    } else {
      assert b == [];
    }
  }

  lemma SelectPair(q: Query, a: seq<Row>, i: nat, a': seq<Row>, b: seq<Row>, k: nat, b': seq<Row>)
    requires i < |a| && k < |b| && a[i] == b[k]
    requires a' == a[..i] + a[i + 1..] && b' == b[..k] + b[k + 1..]
    requires multiset(Select(q, a')) == multiset(Select(q, b'))
    ensures multiset(Select(q, a)) == multiset(Select(q, b))
  {
    SelectWithout(q, a, i);
    SelectWithout(q, b, k);
  }

  lemma RowsById(table: seq<Row>, q: Query)
    requires DistinctIds(table)
    ensures forall x, y :: x in Select(q, table) && y in Select(q, table) && x.id == y.id ==> x == y
  {
    SelectExact(q, table);
    forall x, y | x in Select(q, table) && y in Select(q, table) && x.id == y.id ensures x == y {
      var i :| 0 <= i < |table| && table[i] == x;
      var j :| 0 <= j < |table| && table[j] == y;
    }
  }

  /** The listing is the same whatever order the table is scanned in. */
  lemma ListingCanonical(q: Query, a: seq<Row>, b: seq<Row>)
    requires DistinctIds(a) && multiset(a) == multiset(b)
    ensures Ordered(q, a) == Ordered(q, b)
  {
    SelectPermuted(q, a, b);
    SelectExact(q, a);
    RowsById(a, q);
    OrderingIsStrictTotal(q, Elements(Select(q, a)));
    SortByCanonical((x, y) => q.Before(x, y), Select(q, a), Select(q, b));
  }

  /** The listing holds exactly the matching rows, each once, in strictly ascending order. */
  lemma ListingExact(q: Query, table: seq<Row>)
    requires DistinctIds(table)
    ensures forall r :: r in Ordered(q, table) <==> r in table && q.Matches(r)
    ensures |Ordered(q, table)| == |Select(q, table)|
    ensures forall i, j :: 0 <= i < j < |Ordered(q, table)| ==> q.Before(Ordered(q, table)[i], Ordered(q, table)[j])
  {
    var less := (x, y) => q.Before(x, y);
    SelectExact(q, table);
    RowsById(table, q);
    OrderingIsStrictTotal(q, Elements(Select(q, table)));
    SortByAscending(less, Select(q, table));
    SameElements(Ordered(q, table), Select(q, table));
    var s := Ordered(q, table);
    forall i, j | 0 <= i < j < |s| ensures q.Before(s[i], s[j]) {
      assert less(s[i], s[j]);
    }
  }

  /** The listing selects the tenant's rows that the given filters let through, and no others. */
  lemma ListingSelects(q: Query, table: seq<Row>, r: Row)
    requires DistinctIds(table)
    ensures r in Ordered(q, table) <==>
      && r in table && r.tenant == q.tenant && (q.bucket.None? || r.bucket == q.bucket.value)
      && q.like(r.objectKey) && (q.status.None? || r.status == q.status.value)
  {
    ListingExact(q, table);
  }

  /** Descending was asked for, or nothing was and the field is the creation time. */
  predicate Newest(q: Query) { q.order == "desc" || (q.order != "asc" && q.orderBy == "created_at") }

  /** Two numbers in the direction asked for. */
  predicate InOrder(q: Query, m: int, n: int) { if Newest(q) then m >= n else m <= n }

  predicate TextInOrder(q: Query, s: string, t: string) { if Newest(q) then !LexLess(s, t) else !LexLess(t, s) }

  /** The first of two rows with the same value in the sorted column: the smaller key, then the smaller id. */
  predicate TieBroken(x: Row, y: Row) {
    LexLess(x.objectKey, y.objectKey) || (x.objectKey == y.objectKey && x.id < y.id)
  }

  /**
   * What the order of the listing is, field by field: of two rows, the earlier one has the smaller (or,
   * descending, the larger) value, and with equal values the smaller key and then the smaller id. A field
   * that is not known sorts as "name" does.
   */
  lemma ListingSorted(q: Query, table: seq<Row>, i: nat, j: nat)
    requires DistinctIds(table) && i < j < |Ordered(q, table)|
    ensures var (x, y) := (Ordered(q, table)[i], Ordered(q, table)[j]);
      && (q.orderBy == "size_bytes" ==> InOrder(q, x.size, y.size) && (x.size == y.size ==> TieBroken(x, y)))
      && (q.orderBy == "created_at" ==>
            InOrder(q, x.createdAt, y.createdAt) && (x.createdAt == y.createdAt ==> TieBroken(x, y)))
      && (q.orderBy == "expires_at" && x.expiresAt.Some? && y.expiresAt.Some? ==>
            InOrder(q, x.expiresAt.value, y.expiresAt.value))
      && (q.orderBy == "expires_at" && x.expiresAt == y.expiresAt ==> TieBroken(x, y))
      && (q.orderBy == "bucket" ==> TextInOrder(q, x.bucket, y.bucket) && (x.bucket == y.bucket ==> TieBroken(x, y)))
      && (q.orderBy == "status" && x.status != y.status ==> (x.status == Active <==> !Newest(q)))
      && (q.orderBy == "status" && x.status == y.status ==> TieBroken(x, y))
      && (q.orderBy == "content_type" ==> ContentTypeOrder(q, x, y))
      && (q.orderBy !in {"size_bytes", "created_at", "expires_at", "bucket", "status", "content_type"} ==>
            TextInOrder(q, x.objectKey, y.objectKey) && (x.objectKey == y.objectKey ==> x.id < y.id))
  {
    ListingExact(q, table);
    var x, y := Ordered(q, table)[i], Ordered(q, table)[j];
    assert q.Before(x, y);
    ValuesCompared(q, x, y);
  }

  /**
   * Content types sort as text; rows without one come last in PostgreSQL's ascending order and SQLite's
   * descending one.
   */
  predicate ContentTypeOrder(q: Query, x: Row, y: Row) {
    && (x.contentType.Some? && y.contentType.Some? ==> TextInOrder(q, x.contentType.value, y.contentType.value))
    && (x.contentType.None? && y.contentType.Some? ==> q.postgres == Newest(q))
    && (x.contentType.Some? && y.contentType.None? ==> q.postgres != Newest(q))
    && (x.contentType == y.contentType ==> TieBroken(x, y))
  }

  lemma ValuesCompared(q: Query, x: Row, y: Row)
    requires q.Before(x, y)
    ensures q.Field() == "size_bytes" ==> InOrder(q, x.size, y.size) && (x.size == y.size ==> TieBroken(x, y))
    ensures q.Field() == "created_at" ==>
      InOrder(q, x.createdAt, y.createdAt) && (x.createdAt == y.createdAt ==> TieBroken(x, y))
    ensures q.Field() == "expires_at" && x.expiresAt.Some? && y.expiresAt.Some? ==>
      InOrder(q, x.expiresAt.value, y.expiresAt.value)
    ensures q.Field() == "expires_at" && x.expiresAt == y.expiresAt ==> TieBroken(x, y)
    ensures q.Field() == "bucket" ==> TextInOrder(q, x.bucket, y.bucket) && (x.bucket == y.bucket ==> TieBroken(x, y))
    ensures q.Field() == "status" && x.status != y.status ==> (x.status == Active <==> !Newest(q))
    ensures q.Field() == "status" && x.status == y.status ==> TieBroken(x, y)
    ensures q.Field() == "content_type" ==> ContentTypeOrder(q, x, y)
    ensures q.Field() !in {"size_bytes", "created_at", "expires_at", "bucket", "status", "content_type"} ==>
      TextInOrder(q, x.objectKey, y.objectKey) && (x.objectKey == y.objectKey ==> x.id < y.id)
  {
    KeyStrict(x.objectKey, y.objectKey, y.objectKey);
    KeyStrict(x.bucket, y.bucket, y.bucket);
    StatusTexts();
    if x.contentType.Some? && y.contentType.Some? {
      KeyStrict(x.contentType.value, y.contentType.value, y.contentType.value);
    }
  }

  lemma StatusTexts()
    ensures LexLess("active", "deleted") && !LexLess("deleted", "active")
  {}

  /** Sorting by expires_at, in either direction, puts permanent files after all others. */
  lemma PermanentFilesLast(q: Query, table: seq<Row>, i: nat, j: nat)
    requires DistinctIds(table) && q.Field() == "expires_at" && i < j < |Ordered(q, table)|
    requires Ordered(q, table)[i].expiresAt.None?
    ensures Ordered(q, table)[j].expiresAt.None?
  {
    ListingExact(q, table);
    assert q.Before(Ordered(q, table)[i], Ordered(q, table)[j]);
  }

  // ------------------------------------------------------------------ paging

  function Total(limits: seq<nat>): nat {
    if limits == [] then 0 else limits[0] + Total(limits[1..])
  }

  /** Consecutive pages from `offset`, each computed from its own scan of the table. */
  function Pages(q: Query, scans: seq<seq<Row>>, limits: seq<nat>, offset: nat): seq<Row>
    requires |scans| == |limits|
  {
    if limits == [] then []
    else ListFiles(q, scans[0], offset, limits[0]).0 + Pages(q, scans[1..], limits[1..], offset + limits[0])
  }

  lemma WindowsJoin(s: seq<Row>, offset: nat, limits: seq<nat>, first: seq<Row>, rest: seq<Row>)
    requires limits != [] && first == Window(s, offset, limits[0])
    requires rest == Window(s, offset + limits[0], Total(limits[1..]))
    ensures first + rest == Window(s, offset, Total(limits))
  {}

  lemma PageOfScan(q: Query, table: seq<Row>, scan: seq<Row>, offset: nat, limit: nat)
    requires DistinctIds(table) && multiset(scan) == multiset(table)
    ensures ListFiles(q, scan, offset, limit).0 == Window(Ordered(q, table), offset, limit)
  {
    ListingCanonical(q, table, scan);
  }

  /**
   * Consecutive offset pages of any sizes, each request free to scan the table in its own order,
   * concatenate to the stretch of the whole listing they cover: no row repeated, none skipped.
   */
  lemma {:induction false} PagesTile(q: Query, table: seq<Row>, scans: seq<seq<Row>>, limits: seq<nat>, offset: nat)
    requires DistinctIds(table) && |scans| == |limits|
    requires forall i :: 0 <= i < |scans| ==> multiset(scans[i]) == multiset(table)
    ensures Pages(q, scans, limits, offset) == Window(Ordered(q, table), offset, Total(limits))
    decreases |limits|
  {
    if limits != [] {
      var later, sizes := scans[1..], limits[1..];
      assert forall i :: 0 <= i < |later| ==> later[i] == scans[i + 1];
      PageOfScan(q, table, scans[0], offset, limits[0]);
      PagesTile(q, table, later, sizes, offset + limits[0]);
      var first, rest := ListFiles(q, scans[0], offset, limits[0]).0, Pages(q, later, sizes, offset + limits[0]);
      WindowsJoin(Ordered(q, table), offset, limits, first, rest);
      PagesFirst(q, scans, limits, offset);
    }
  }

  lemma PagesFirst(q: Query, scans: seq<seq<Row>>, limits: seq<nat>, offset: nat)
    requires |scans| == |limits| && limits != []
    ensures Pages(q, scans, limits, offset)
      == ListFiles(q, scans[0], offset, limits[0]).0 + Pages(q, scans[1..], limits[1..], offset + limits[0])
  {}

  /** From offset 0, once the sizes reach the reported total, the pages are the whole filtered listing. */
  lemma PagesComplete(q: Query, table: seq<Row>, scans: seq<seq<Row>>, limits: seq<nat>)
    requires DistinctIds(table) && |scans| == |limits|
    requires forall i :: 0 <= i < |scans| ==> multiset(scans[i]) == multiset(table)
    requires Total(limits) >= ListFiles(q, table, 0, 0).1
    ensures Pages(q, scans, limits, 0) == Ordered(q, table)
    ensures forall r :: r in Pages(q, scans, limits, 0) <==> r in table && q.Matches(r)
  {
    PagesTile(q, table, scans, limits, 0);
    ListingExact(q, table);
    var all := Ordered(q, table);
    assert all[0..|all|] == all;
  }
}
