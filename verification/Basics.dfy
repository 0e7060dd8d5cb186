/** Shared vocabulary: bytes, optional values, results, and flattening of chunk lists. */
module Basics {

  newtype byte = x: int | 0 <= x < 256
  type bytes = seq<byte>

  datatype Option<+T> = None | Some(value: T) {
    function GetOr(default: T): T {
      match this
      case None => default
      case Some(v) => v
    }
  }

  datatype Result<+T, +E> = Ok(value: T) | Err(error: E)

  function Min(a: int, b: int): int { if a <= b then a else b }
  function Max(a: int, b: int): int { if a >= b then a else b }

  /** The concatenation of a list of chunks, in order. */
  function Flatten<T>(chunks: seq<seq<T>>): seq<T> {
    if chunks == [] then [] else chunks[0] + Flatten(chunks[1..])
  }

  lemma {:induction false} FlattenConcat<T>(a: seq<seq<T>>, b: seq<seq<T>>)
    ensures Flatten(a + b) == Flatten(a) + Flatten(b)
  {
    if a == [] {
      assert a + b == b;
    } else {
      FlattenConcat(a[1..], b);
      assert (a + b)[1..] == a[1..] + b && (a + b)[0] == a[0];
      assert a[0] + (Flatten(a[1..]) + Flatten(b)) == (a[0] + Flatten(a[1..])) + Flatten(b);
    }
  }

  lemma FlattenPush<T>(a: seq<seq<T>>, x: seq<T>)
    ensures Flatten(a + [x]) == Flatten(a) + x
  {
    FlattenConcat(a, [x]);
    assert Flatten([x]) == x + Flatten([x][1..]);
    assert [x][1..] == [];
  }

  /** The numbers lo, lo + 1, ..., hi. */
  function Interval(lo: int, hi: int): (s: set<int>)
    ensures forall n :: n in s <==> lo <= n <= hi
    decreases hi - lo + 1
  {
    if hi < lo then {} else Interval(lo, hi - 1) + {hi}
  }

  lemma {:induction false} IntervalSize(lo: int, hi: int)
    requires lo <= hi + 1
    ensures |Interval(lo, hi)| == hi - lo + 1
    decreases hi - lo + 1
  {
    if lo <= hi {
      IntervalSize(lo, hi - 1);
      assert Interval(lo, hi) == Interval(lo, hi - 1) + {hi};
    } else {
      assert Interval(lo, hi) == {};
    }
  }

  lemma {:induction false} SubsetSize<T>(a: set<T>, b: set<T>)
    requires a <= b
    ensures |a| <= |b|
    ensures |a| == |b| ==> a == b
    decreases a
  {
    if a == {} {
    } else {
      var x :| x in a;
      SubsetSize(a - {x}, b - {x});
      assert a == (a - {x}) + {x} && b == (b - {x}) + {x};
    }
  }

  /** The elements of a finite set of numbers in increasing order. */
  ghost function Increasing(s: set<nat>): seq<nat>
    decreases |s|
  {
    if s == {} then [] else [Least(s)] + Increasing(s - {Least(s)})
  }

  /** `ns` are the elements of `s`, in increasing order. */
  ghost predicate Lists(ns: seq<nat>, s: set<nat>) {
    && (forall n :: n in ns <==> n in s) && |ns| == |s|
    && (forall i, j :: 0 <= i < j < |ns| ==> ns[i] < ns[j])
  }

  lemma IncreasingMeans(s: set<nat>)
    ensures forall n :: n in Increasing(s) <==> n in s
    ensures |Increasing(s)| == |s|
    ensures forall i, j :: 0 <= i < j < |Increasing(s)| ==> Increasing(s)[i] < Increasing(s)[j]
  {
    IncreasingLists(s);
  }

  lemma {:induction false} IncreasingLists(s: set<nat>)
    ensures Lists(Increasing(s), s)
    decreases |s|
  {
    if s != {} {
      var m := Least(s);
      IncreasingLists(s - {m});
      LeastFirst(s, m, Increasing(s - {m}));
    }
  }

  lemma LeastFirst(s: set<nat>, m: nat, rest: seq<nat>)
    requires m in s && (forall n :: n in s ==> m <= n) && Lists(rest, s - {m})
    ensures Lists([m] + rest, s)
  {
    assert s == (s - {m}) + {m};
    forall i | 0 <= i < |rest| ensures m < rest[i] {
      assert rest[i] in rest;
    }
    forall n ensures n in [m] + rest <==> n in s {
      assert n in [m] + rest <==> n == m || n in rest;
    }
  }

  ghost predicate IsLeast(s: set<nat>, m: nat) { m in s && forall n :: n in s ==> m <= n }

  ghost function Least(s: set<nat>): (m: nat)
    requires s != {}
    ensures m in s && forall n :: n in s ==> m <= n
  {
    LeastExists(s);
    var m :| IsLeast(s, m);
    m
  }

  lemma {:induction false} LeastExists(s: set<nat>)
    requires s != {}
    ensures exists m :: IsLeast(s, m)
    decreases |s|
  {
    var x :| x in s;
    var rest := s - {x};
    if rest == {} {
      assert s == {x};
      assert IsLeast(s, x);
    } else {
      LeastExists(rest);
      var m :| IsLeast(rest, m);
      LeastOfMore(s, x, m);
    }
  }

  lemma LeastOfMore(s: set<nat>, x: nat, m: nat)
    requires x in s && IsLeast(s - {x}, m)
    ensures IsLeast(s, Min(x, m))
  {
    forall n | n in s ensures Min(x, m) <= n {
      assert n == x || n in s - {x};
    }
  }
}
