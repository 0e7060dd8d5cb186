/** `sorted(...)` and `ORDER BY`: insertion into a list that is ascending for a strict order. */
module Sorting {

  /** No two elements of `s` are related both ways, and the relation chains. */
  ghost predicate StrictOn<T(!new)>(less: (T, T) -> bool, s: set<T>) {
    && (forall x, y :: x in s && y in s && less(x, y) ==> !less(y, x))
    && (forall x, y, z :: x in s && y in s && z in s && less(x, y) && less(y, z) ==> less(x, z))
  }

  /** Any two different elements of `s` are related one way or the other. */
  ghost predicate TotalOn<T(!new)>(less: (T, T) -> bool, s: set<T>) {
    forall x, y :: x in s && y in s && x != y ==> less(x, y) || less(y, x)
  }

  ghost predicate Ascending<T(!new)>(less: (T, T) -> bool, s: seq<T>) {
    forall i, j :: 0 <= i < j < |s| ==> less(s[i], s[j])
  }

  ghost predicate Distinct<T(!new)>(s: seq<T>) {
    forall i, j :: 0 <= i < j < |s| ==> s[i] != s[j]
  }

  ghost function Elements<T(!new)>(s: seq<T>): set<T> { set x | x in s }

  function Insert<T>(less: (T, T) -> bool, x: T, s: seq<T>): (r: seq<T>)
    ensures multiset(r) == multiset{x} + multiset(s)
  {
    if s == [] then [x]
    else if less(s[0], x) then
      assert s == [s[0]] + s[1..];
      [s[0]] + Insert(less, x, s[1..])
    else [x] + s
  }

  function SortBy<T>(less: (T, T) -> bool, s: seq<T>): (r: seq<T>)
    ensures multiset(r) == multiset(s)
  {
    if s == [] then []
    else
      assert s == [s[0]] + s[1..];
      Insert(less, s[0], SortBy(less, s[1..]))
  }

  lemma SameElements<T>(a: seq<T>, b: seq<T>)
    requires multiset(a) == multiset(b)
    ensures forall x :: x in a <==> x in b
    ensures |a| == |b|
  {
    assert |multiset(a)| == |a| && |multiset(b)| == |b|;
    forall x ensures x in a <==> x in b {
      assert x in a <==> x in multiset(a);
      assert x in b <==> x in multiset(b);
    }
  }

  /** Taking one element out of a list. */
  lemma Taken<T>(s: seq<T>, i: nat)
    requires i < |s|
    ensures s == s[..i] + ([s[i]] + s[i + 1..])
    ensures multiset(s) == multiset(s[..i] + s[i + 1..]) + multiset{s[i]}
  {
    assert s == s[..i] + ([s[i]] + s[i + 1..]);
  }

  lemma {:induction false} InsertAscending<T(!new)>(less: (T, T) -> bool, x: T, s: seq<T>, all: set<T>)
    requires StrictOn(less, all) && TotalOn(less, all)
    requires x in all && (forall y :: y in s ==> y in all) && x !in s
    requires Ascending(less, s)
    ensures Ascending(less, Insert(less, x, s))
  {
    if s == [] {
    } else if less(s[0], x) {
      assert forall y :: y in s[1..] ==> y in s;
      InsertAscending(less, x, s[1..], all);
      var r := Insert(less, x, s[1..]);
      forall y | y in r ensures less(s[0], y) {
        assert y in multiset(r);
        if y != x {
          assert y in multiset(s[1..]);
        }
      }
    } else {
      assert less(x, s[0]);
    }
  }

  /** Sorting distinct elements of a strict total order yields a strictly ascending list. */
  lemma {:induction false} SortByAscending<T(!new)>(less: (T, T) -> bool, s: seq<T>)
    requires StrictOn(less, Elements(s)) && TotalOn(less, Elements(s)) && Distinct(s)
    ensures Ascending(less, SortBy(less, s))
  {
    if s == [] {
    } else {
      assert Elements(s[1..]) <= Elements(s);
      SortByAscending(less, s[1..]);
      var r := SortBy(less, s[1..]);
      SameElements(r, s[1..]);
      InsertAscending(less, s[0], r, Elements(s));
    }
  }

  /** A strictly ascending list is determined by its elements. */
  lemma {:induction false} AscendingUnique<T(!new)>(less: (T, T) -> bool, a: seq<T>, b: seq<T>)
    requires StrictOn(less, Elements(a))
    requires Ascending(less, a) && Ascending(less, b)
    requires forall x :: x in a <==> x in b
    ensures a == b
  {
    assert b != [] ==> b[0] in a;
    if a == [] {
    } else {
      assert a[0] in b;
      var x, y := a[0], b[0];
      assert x in Elements(a) && y in Elements(a);
      assert x != y ==> less(x, y) && less(y, x);
      forall x ensures x in a[1..] <==> x in b[1..] {
        if x in a[1..] {
          var i :| 1 <= i < |a| && a[i] == x;
          assert less(a[0], x) && a[0] in Elements(a);
          assert x != a[0];
          assert x in b;
        }
        if x in b[1..] {
          var i :| 1 <= i < |b| && b[i] == x;
          assert less(b[0], x) && x in a && a[0] in Elements(a);
          assert x != a[0];
        }
      }
      assert Elements(a[1..]) <= Elements(a);
      AscendingUnique(less, a[1..], b[1..]);
    }
  }

  /** Sorting two lists of the same distinct elements gives the same list. */
  lemma SortByCanonical<T(!new)>(less: (T, T) -> bool, a: seq<T>, b: seq<T>)
    requires multiset(a) == multiset(b)
    requires StrictOn(less, Elements(a)) && TotalOn(less, Elements(a))
    requires Distinct(a)
    ensures SortBy(less, a) == SortBy(less, b)
  {
    SameElements(a, b);
    DistinctTransfers(a, b);
    assert Elements(a) == Elements(b);
    SortByAscending(less, a);
    SortByAscending(less, b);
    SameElements(SortBy(less, a), a);
    SameElements(SortBy(less, b), b);
    assert Elements(SortBy(less, a)) == Elements(a);
    AscendingUnique(less, SortBy(less, a), SortBy(less, b));
  }

  lemma DistinctTransfers<T(!new)>(a: seq<T>, b: seq<T>)
    requires multiset(a) == multiset(b) && Distinct(a)
    ensures Distinct(b)
  {
    forall i, j | 0 <= i < j < |b| ensures b[i] != b[j] {
      if b[i] == b[j] {
        var x := b[i];
        TwiceCounted(b, i, j);
        assert multiset(a)[x] >= 2;
        OnceCounted(a, x);
      }
    }
  }

  lemma TwiceCounted<T>(s: seq<T>, i: int, j: int)
    requires 0 <= i < j < |s| && s[i] == s[j]
    ensures multiset(s)[s[i]] >= 2
  {
    assert s == s[..j] + [s[j]] + s[j + 1..];
    assert s[i] == s[..j][i];
    assert s[i] in multiset(s[..j]);
  }

  lemma {:induction false} OnceCounted<T(!new)>(s: seq<T>, x: T)
    requires Distinct(s)
    ensures multiset(s)[x] <= 1
  {
    if s == [] {
    } else {
      OnceCounted(s[1..], x);
      assert s == [s[0]] + s[1..];
      if x == s[0] {
        assert x !in s[1..];
      }
    }
  }

  /** Strict lexicographic order on code points: Python's and the database's string order. */
  predicate LexLess(a: string, b: string) {
    if b == [] then false
    else if a == [] then true
    else a[0] < b[0] || (a[0] == b[0] && LexLess(a[1..], b[1..]))
  }

  lemma {:induction false} LexAsymmetric(a: string, b: string)
    requires LexLess(a, b)
    ensures !LexLess(b, a)
    decreases |a|
  {
    if a != [] && a[0] == b[0] {
      LexAsymmetric(a[1..], b[1..]);
    }
  }

  lemma {:induction false} LexTransitive(a: string, b: string, c: string)
    requires LexLess(a, b) && LexLess(b, c)
    ensures LexLess(a, c)
    decreases |a|
  {
    if a != [] && a[0] == b[0] && b[0] == c[0] {
      LexTransitive(a[1..], b[1..], c[1..]);
    }
  }

  lemma {:induction false} LexTotal(a: string, b: string)
    ensures a == b || LexLess(a, b) || LexLess(b, a)
    decreases |a|
  {
    if a != [] && b != [] && a[0] == b[0] {
      LexTotal(a[1..], b[1..]);
      assert a == [a[0]] + a[1..] && b == [b[0]] + b[1..];
    }
  }

  lemma SameTaken<T>(a: seq<T>, i: nat, b: seq<T>, k: nat)
    requires multiset(a) == multiset(b) && i < |a| && k < |b| && a[i] == b[k]
    ensures multiset(a[..i] + a[i + 1..]) == multiset(b[..k] + b[k + 1..])
  {
    Taken(a, i);
    Taken(b, k);
    assert multiset(a[..i] + a[i + 1..]) == multiset(a) - multiset{a[i]};
  }
}
