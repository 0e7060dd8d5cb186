/**
 * Cutting a file into parts: the part count, the bytes of each part, and the fact that the parts
 * tile the file. The server, the SDK and the portal all use this arithmetic.
 */
module Slicing {
  import opened Basics

  lemma {:induction false} MulMonotone(a: nat, b: nat, p: nat)
    requires a <= b
    ensures a * p <= b * p
    ensures a < b ==> a * p + p <= b * p
    decreases b - a
  {
    if a < b {
      MulMonotone(a + 1, b, p);
      assert (a + 1) * p == a * p + p;
    }
  }

  function CeilDiv(t: nat, p: nat): nat
    requires p > 0
  {
    (t + p - 1) / p
  }

  /** `max(1, math.ceil(total_size / part_size))` with an exact quotient; see DoubleCeilExact. */
  function TotalParts(t: nat, p: nat): (n: nat)
    requires p > 0
    ensures n >= 1
  {
    Max(1, CeilDiv(t, p))
  }

  /** The byte offset of part n, and so also the end of part n - 1. */
  function Offset(p: nat, n: nat): nat
    requires n >= 1
  {
    (n - 1) * p
  }

  lemma PartCountBounds(t: nat, p: nat)
    requires p > 0
    ensures Offset(p, TotalParts(t, p)) <= t <= TotalParts(t, p) * p
    ensures t > 0 ==> Offset(p, TotalParts(t, p)) < t
  {
    var c := CeilDiv(t, p);
    assert (t + p - 1) == c * p + (t + p - 1) % p;
    if t == 0 {
      assert c == 0 by { assert (p - 1) / p == 0; }
    } else {
      assert c != 0;
      assert (c - 1) * p == c * p - p;
    }
  }

  lemma OffsetMonotone(p: nat, m: nat, n: nat)
    requires 1 <= m <= n
    ensures Offset(p, m) <= Offset(p, n)
    ensures m < n ==> Offset(p, m) + p <= Offset(p, n)
  {
    MulMonotone(m - 1, n - 1, p);
  }

  /** Part n starts inside the file (or is the one empty part of an empty file). */
  lemma OffsetInFile(t: nat, p: nat, n: nat)
    requires p > 0 && 1 <= n <= TotalParts(t, p)
    ensures Offset(p, n) <= t
    ensures n < TotalParts(t, p) ==> Offset(p, n) + p <= t
    ensures n == TotalParts(t, p) ==> t <= Offset(p, n) + p
    ensures t > 0 ==> Offset(p, n) < t
  {
    PartCountBounds(t, p);
    OffsetMonotone(p, n, TotalParts(t, p));
    var c := TotalParts(t, p);
    assert c * p == (c - 1) * p + p;
  }

  /** The bytes that belong to part n of file `f`. */
  function Slice(f: bytes, p: nat, n: nat): bytes
    requires p > 0 && 1 <= n <= TotalParts(|f|, p)
  {
    OffsetInFile(|f|, p, n);
    f[Offset(p, n)..Min(Offset(p, n) + p, |f|)]
  }

  /** The size of part n: full for every part but the last, never negative, zero only for an empty file. */
  lemma SliceSize(f: bytes, p: nat, n: nat)
    requires p > 0 && 1 <= n <= TotalParts(|f|, p)
    ensures |Slice(f, p, n)| == Min(p, |f| - Offset(p, n))
    ensures n < TotalParts(|f|, p) ==> |Slice(f, p, n)| == p
    ensures |Slice(f, p, n)| == 0 <==> f == []
  {
    OffsetInFile(|f|, p, n);
  }

  lemma EmptyFileOnePart(p: nat)
    requires p > 0
    ensures TotalParts(0, p) == 1
  {
    assert (p - 1) / p == 0;
  }

  /** Where part k ends. */
  function End(f: bytes, p: nat, k: nat): (e: nat)
    ensures e <= |f|
  {
    Min(k * p, |f|)
  }

  lemma EndStep(f: bytes, p: nat, k: nat)
    requires p > 0 && 1 <= k <= TotalParts(|f|, p)
    ensures End(f, p, k - 1) == Offset(p, k) && End(f, p, k) == Offset(p, k) + |Slice(f, p, k)|
    ensures End(f, p, k - 1) + |Slice(f, p, k)| == End(f, p, k)
    ensures f[..End(f, p, k - 1)] + Slice(f, p, k) == f[..End(f, p, k)]
    ensures f != [] ==> End(f, p, k - 1) < End(f, p, k)
  {
    EndsOfPart(f, p, k);
    SliceSize(f, p, k);
    var a, b := Offset(p, k), End(f, p, k);
    assert f[..a] + f[a..b] == f[..b];
  }

  lemma EndsOfPart(f: bytes, p: nat, k: nat)
    requires p > 0 && 1 <= k <= TotalParts(|f|, p)
    ensures End(f, p, k - 1) == Offset(p, k) <= |f| && End(f, p, k) == Min(Offset(p, k) + p, |f|)
  {
    OffsetInFile(|f|, p, k);
    assert k * p == Offset(p, k) + p;
  }

  lemma LastEnd(f: bytes, p: nat)
    requires p > 0
    ensures End(f, p, TotalParts(|f|, p)) == |f| && f[..|f|] == f && End(f, p, 0) == 0
  {
    PartCountBounds(|f|, p);
  }

  /** Parts 1..k in order. */
  function Slices(f: bytes, p: nat, k: nat): (s: seq<bytes>)
    requires p > 0 && k <= TotalParts(|f|, p)
    ensures |s| == k
    ensures forall i :: 0 <= i < k ==> s[i] == Slice(f, p, i + 1)
  {
    if k == 0 then [] else Slices(f, p, k - 1) + [Slice(f, p, k)]
  }

  lemma {:induction false} SlicesPrefix(f: bytes, p: nat, k: nat)
    requires p > 0 && k <= TotalParts(|f|, p)
    ensures Flatten(Slices(f, p, k)) == f[..End(f, p, k)]
  {
    if k > 0 {
      SlicesPrefix(f, p, k - 1);
      FlattenPush(Slices(f, p, k - 1), Slice(f, p, k));
      EndStep(f, p, k);
    }
  }

  /** The parts of a file, put together in order, are the file. */
  lemma SlicesTile(f: bytes, p: nat)
    requires p > 0
    ensures Flatten(Slices(f, p, TotalParts(|f|, p))) == f
  {
    SlicesPrefix(f, p, TotalParts(|f|, p));
    LastEnd(f, p);
  }

  /** Every byte of the file lies in exactly one part. */
  lemma SliceOwner(f: bytes, p: nat, i: nat, n: nat)
    requires p > 0 && i < |f| && 1 <= n <= TotalParts(|f|, p)
    ensures Offset(p, n) <= i < Offset(p, n) + |Slice(f, p, n)| <==> n == i / p + 1
  {
    SliceSize(f, p, n);
    OffsetInFile(|f|, p, n);
    QuotientOwner(p, i, n - 1);
  }

  lemma QuotientOwner(p: nat, i: nat, m: nat)
    requires p > 0
    ensures m * p <= i < m * p + p <==> m == i / p
  {
    var q := i / p;
    assert i == q * p + i % p;
    if m < q {
      MulMonotone(m + 1, q, p);
      assert (m + 1) * p == m * p + p;
    } else if m > q {
      MulMonotone(q + 1, m, p);
      assert (q + 1) * p == q * p + p;
    }
  }

  // ------------------------------------------------------------------ the floating-point quotient

  function Pow2(e: nat): (p: nat)
    ensures p >= 1
  {
    if e == 0 then 1 else 2 * Pow2(e - 1)
  }

  const MANTISSA: int := 9_007_199_254_740_992 // 2^53

  /** `y` is the 53-bit integer `m` divided by 2^e. */
  ghost predicate Dyadic(y: real, m: int, e: nat) {
    -MANTISSA < m < MANTISSA && e <= 1074 && y * Pow2(e) as real == m as real
  }

  /** `y` is the 53-bit integer `m` times 2^e. */
  ghost predicate Scaled(y: real, m: int, e: nat) {
    -MANTISSA < m < MANTISSA && e <= 971 && y == m as real * Pow2(e) as real
  }

  /** A finite double. */
  ghost predicate IsDouble(y: real) {
    (exists m, e :: Dyadic(y, m, e)) || (exists m, e :: Scaled(y, m, e))
  }

  function AbsReal(x: real): real { if x < 0.0 then -x else x }

  /** `q` is a double no farther from `x` than any other: IEEE 754 round-to-nearest, either tie. */
  ghost predicate NearestDouble(x: real, q: real) {
    IsDouble(q) && forall z :: IsDouble(z) ==> AbsReal(x - q) <= AbsReal(x - z)
  }

  /** `math.ceil` of a double. */
  function CeilReal(q: real): int { -((-q).Floor) }

  lemma Pow2At29()
    ensures Pow2(29) == 536_870_912
  {
    assert Pow2(10) == 1024;
    assert Pow2(20) == 1024 * Pow2(10) by {
      assert Pow2(15) == 32 * Pow2(10);
    }
    assert Pow2(25) == 32 * Pow2(20);
  }

  lemma DyadicDouble(m: int, y: real)
    requires -MANTISSA < m < MANTISSA && y * 536_870_912.0 == m as real
    ensures IsDouble(y)
  {
    Pow2At29();
    assert Dyadic(y, m, 29);
  }

  lemma IntegerDouble(m: int)
    requires 0 <= m <= 16_777_216
    ensures IsDouble(m as real)
  {
    assert Dyadic(m as real, m, 0);
  }

  /**
   * `math.ceil(total_size / part_size)` computed through a double is the exact ceiling whenever the
   * part size is at most 512 MiB and the count stays below 2^24; larger counts are never mistaken
   * for smaller ones, so the maximum_parts check (10000) decides as it would on exact numbers.
   */
  lemma DoubleCeilExact(t: nat, p: nat, q: real)
    requires 0 < p <= 536_870_912
    requires NearestDouble(t as real / p as real, q)
    ensures CeilDiv(t, p) < 16_777_216 ==> CeilReal(q) == CeilDiv(t, p)
    ensures CeilDiv(t, p) >= 16_777_216 ==> CeilReal(q) >= 16_777_216
  {
    var x := t as real / p as real;
    var c := CeilDiv(t, p);
    QuotientBounds(t, p);
    if c >= 16_777_217 {
      IntegerDouble(16_777_216);
      assert x >= 16_777_216.0;
      assert AbsReal(x - q) <= AbsReal(x - 16_777_216.0);
    } else if x == c as real {
      IntegerDouble(c);
      assert AbsReal(x - q) <= AbsReal(x - c as real);
      assert q == c as real;
    } else {
      var g := 1.0 / 536_870_912.0;
      var lo, hi := (c - 1) as real + g, c as real - g;
      DyadicDouble((c - 1) * 536_870_912 + 1, lo);
      DyadicDouble(c * 536_870_912 - 1, hi);
      assert AbsReal(x - q) <= AbsReal(x - lo) && AbsReal(x - q) <= AbsReal(x - hi);
      assert (c - 1) as real < q < c as real;
    }
  }

  /** A quotient that is not whole is at least 1/p, hence 2^-29, away from both neighbours. */
  lemma QuotientBounds(t: nat, p: nat)
    requires 0 < p <= 536_870_912
    ensures var x, c := t as real / p as real, CeilDiv(t, p);
      && (t > 0 ==> (c - 1) as real < x)
      && x <= c as real
      && (x != c as real ==>
            (c - 1) as real + 1.0 / 536_870_912.0 <= x <= c as real - 1.0 / 536_870_912.0)
      && (c >= 16_777_217 ==> x >= 16_777_216.0)
  {
    var x, c, r := t as real / p as real, CeilDiv(t, p), p as real;
    assert x * r == t as real;
    assert t + p - 1 == c * p + (t + p - 1) % p;
    assert (c - 1) * p + 1 <= t <= c * p by {
      assert (c - 1) * p == c * p - p;
    }
    RealQuotient(x, r, (c - 1) as real, c as real, t, p, c);
  }

  lemma RealQuotient(x: real, r: real, lo: real, hi: real, t: nat, p: nat, c: int)
    requires 0 < p <= 536_870_912 && r == p as real && x * r == t as real
    requires lo == (c - 1) as real && hi == c as real
    requires (c - 1) * p + 1 <= t <= c * p
    ensures lo + 1.0 / 536_870_912.0 <= x <= hi
    ensures x != hi ==> x <= hi - 1.0 / 536_870_912.0
  {
    assert lo * r == ((c - 1) * p) as real;
    assert hi * r == (c * p) as real;
    var g := 1.0 / 536_870_912.0;
    assert g * r <= 1.0;
    assert (lo + g) * r <= x * r by {
      assert (lo + g) * r == lo * r + g * r;
    }
    CancelFactor(lo + g, x, r);
    CancelFactor(x, hi, r);
    if x != hi {
      assert x * r != hi * r by {
        if x * r == hi * r {
          CancelFactor(hi, x, r);
        }
      }
      assert t <= c * p - 1;
      assert (hi - g) * r == hi * r - g * r;
      CancelFactor(x, hi - g, r);
    }
  }

  lemma CancelFactor(a: real, b: real, r: real)
    requires r > 0.0 && a * r <= b * r
    ensures a <= b
  {
    assert a > b ==> (a - b) * r > 0.0;
  }
}
