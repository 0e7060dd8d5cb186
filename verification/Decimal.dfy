/** Decimal numerals as Python prints and reads them, and the zero-padded part file names. */
module Decimal {
  import opened Basics
  import opened Sorting

  predicate IsDigit(c: char) { '0' <= c <= '9' }

  function DigitValue(c: char): nat
    requires IsDigit(c)
  {
    c as int - '0' as int
  }

  function DigitChar(d: nat): (c: char)
    requires d < 10
    ensures IsDigit(c) && DigitValue(c) == d
  {
    "0123456789"[d]
  }

  predicate AllDigits(s: string) { forall i :: 0 <= i < |s| ==> IsDigit(s[i]) }

  /** `str(n)` for a non-negative integer. */
  function ToDec(n: nat): (s: string)
    ensures AllDigits(s) && |s| >= 1
  {
    if n < 10 then [DigitChar(n)] else ToDec(n / 10) + [DigitChar(n % 10)]
  }

  /** The value of a digit string, most significant digit first. */
  function FromDigits(s: string): nat
    requires AllDigits(s)
  {
    if s == [] then 0 else FromDigits(s[..|s| - 1]) * 10 + DigitValue(s[|s| - 1])
  }

  lemma {:induction false} DecimalRoundTrip(n: nat)
    ensures FromDigits(ToDec(n)) == n
  {
    if n < 10 {
      var s := [DigitChar(n)];
      assert ToDec(n) == s && FromDigits(s[..0]) == 0 && s[0] == DigitChar(n);
    } else {
      DecimalRoundTrip(n / 10);
      var s := ToDec(n);
      assert s[..|s| - 1] == ToDec(n / 10);
    }
  }

  // ------------------------------------------------------------------ int(text)

  /** The characters that `str.strip` and `int` treat as blank. */
  predicate IsSpace(c: char) {
    || '\t' <= c <= '\r'
    || '\U{1C}' <= c <= ' '
    || c == '\U{85}' || c == '\U{A0}' || c == '\U{1680}'
    || '\U{2000}' <= c <= '\U{200A}'
    || c == '\U{2028}' || c == '\U{2029}' || c == '\U{202F}' || c == '\U{205F}' || c == '\U{3000}'
  }

  function StripLeft(s: string): string {
    if s != [] && IsSpace(s[0]) then StripLeft(s[1..]) else s
  }

  function StripRight(s: string): string {
    if s != [] && IsSpace(s[|s| - 1]) then StripRight(s[..|s| - 1]) else s
  }

  /** `text.strip()` */
  function Strip(s: string): string { StripRight(StripLeft(s)) }

  /** Digits with single underscores allowed between them, as `int` accepts. */
  predicate IsNumeral(s: string) {
    s != [] && IsDigit(s[0]) &&
    (|s| == 1 || (if s[1] == '_' then IsNumeral(s[2..]) else IsNumeral(s[1..])))
  }

  function DropUnderscores(s: string): string {
    if s == [] then [] else (if s[0] == '_' then [] else [s[0]]) + DropUnderscores(s[1..])
  }

  lemma {:induction false} NumeralDigits(s: string)
    requires IsNumeral(s)
    ensures AllDigits(DropUnderscores(s))
  {
    if |s| == 1 {
      assert DropUnderscores(s[1..]) == [];
    } else if s[1] == '_' {
      NumeralDigits(s[2..]);
      assert s[1..][1..] == s[2..] && s[1..][0] == '_';
    } else {
      NumeralDigits(s[1..]);
    }
  }

  /** `int(text)`, or None where Python raises ValueError. Only ASCII digits are numerals here. */
  function PyInt(text: string): Option<int> {
    var t := Strip(text);
    if t != [] && (t[0] == '+' || t[0] == '-') then
      if IsNumeral(t[1..]) then
        NumeralDigits(t[1..]);
        var v: int := FromDigits(DropUnderscores(t[1..]));
        Some(if t[0] == '-' then -v else v)
      else None
    else if IsNumeral(t) then
      NumeralDigits(t);
      Some(FromDigits(DropUnderscores(t)))
    else None
  }

  lemma StripTight(s: string)
    requires s == [] || (!IsSpace(s[0]) && !IsSpace(s[|s| - 1]))
    ensures Strip(s) == s
  {}

  lemma {:induction false} DigitsAreNumeral(s: string)
    requires AllDigits(s) && s != []
    ensures IsNumeral(s) && DropUnderscores(s) == s
  {
    assert [s[0]] + s[1..] == s && s[0] != '_';
    if |s| == 1 {
      assert DropUnderscores(s[1..]) == [];
    } else {
      assert s[1] != '_' && forall i :: 0 <= i < |s[1..]| ==> s[1..][i] == s[i + 1];
      DigitsAreNumeral(s[1..]);
    }
  }

  /** Reading any plain digit string, leading zeros included, gives its value. */
  lemma PyIntDigits(s: string)
    requires AllDigits(s) && s != []
    ensures PyInt(s) == Some(FromDigits(s))
  {
    StripTight(s);
    DigitsAreNumeral(s);
  }

  ghost predicate Blank(s: string) { forall i :: 0 <= i < |s| ==> IsSpace(s[i]) }

  lemma {:induction false} StripBlank(l: string, t: string, r: string)
    requires Blank(l) && Blank(r) && t != [] && !IsSpace(t[0]) && !IsSpace(t[|t| - 1])
    ensures Strip(l + t + r) == t
  {
    StripLeftBlank(l, t + r);
    assert l + t + r == l + (t + r);
    StripRightBlank(t, r);
  }

  lemma {:induction false} StripLeftBlank(l: string, t: string)
    requires Blank(l) && t != [] && !IsSpace(t[0])
    ensures StripLeft(l + t) == t
  {
    if l == [] {
      assert l + t == t;
    } else {
      StripLeftBlank(l[1..], t);
      assert (l + t)[1..] == l[1..] + t;
    }
  }

  lemma {:induction false} StripRightBlank(t: string, r: string)
    requires Blank(r) && t != [] && !IsSpace(t[|t| - 1])
    ensures StripRight(t + r) == t
    decreases |r|
  {
    if r == [] {
      assert t + r == t;
    } else {
      StripRightBlank(t, r[..|r| - 1]);
      assert (t + r)[..|t + r| - 1] == t + r[..|r| - 1];
    }
  }

  /** A numeral with a sign before it and blanks around it is read as its signed value. */
  lemma {:induction false} PyIntSigned(l: string, sign: string, d: string, r: string)
    requires Blank(l) && Blank(r) && AllDigits(d) && d != [] && (sign == "" || sign == "+" || sign == "-")
    ensures var value: int := FromDigits(d); PyInt(l + (sign + d) + r) == Some(if sign == "-" then -value else value)
  {
    if sign == "" { assert sign + d == d; }
    StripBlank(l, sign + d, r);
    SignedRead(l + (sign + d) + r, sign, d, sign + d);
  }

  lemma {:induction false} SignedRead(text: string, sign: string, d: string, t: string)
    requires Strip(text) == t == sign + d && AllDigits(d) && d != [] && (sign == "" || sign == "+" || sign == "-")
    ensures var value: int := FromDigits(d); PyInt(text) == Some(if sign == "-" then -value else value)
  {
    DigitsAreNumeral(d);
    if sign == "" {
      assert t == d;
    } else {
      assert t[0] == sign[0] && t[1..] == d;
    }
  }

  // ------------------------------------------------------------------ part file names

  function Zeros(k: nat): (s: string)
    ensures |s| == k && AllDigits(s)
  {
    if k == 0 then [] else Zeros(k - 1) + ['0']
  }

  /** `f"{n:08d}"` */
  function Pad8(n: nat): (s: string)
    ensures AllDigits(s) && |s| >= 8
  {
    var d := ToDec(n);
    if |d| < 8 then Zeros(8 - |d|) + d else d
  }

  /** `f"{n:08d}.part"` */
  function PartName(n: nat): string { Pad8(n) + ".part" }

  /** `int(path.stem)` for a `*.part` path. */
  function PartNumber(name: string): Option<int>
    requires |name| >= 5
  {
    PyInt(name[..|name| - 5])
  }

  lemma {:induction false} LeadingZeros(k: nat, s: string)
    requires AllDigits(s)
    ensures FromDigits(Zeros(k) + s) == FromDigits(s)
  {
    if s == [] {
      assert Zeros(k) + s == Zeros(k);
      ZerosValue(k);
    } else {
      LeadingZeros(k, s[..|s| - 1]);
      DigitsPush(Zeros(k) + s[..|s| - 1], s[|s| - 1], Zeros(k) + s);
      DigitsPush(s[..|s| - 1], s[|s| - 1], s);
    }
  }

  lemma {:induction false} ZerosValue(k: nat)
    ensures FromDigits(Zeros(k)) == FromDigits([])
  {
    if k > 0 {
      ZerosValue(k - 1);
      DigitsPush(Zeros(k - 1), '0', Zeros(k));
    }
  }

  lemma {:induction false} DigitsPush(s: string, c: char, t: string)
    requires AllDigits(s) && '0' <= c <= '9' && t == s + [c]
    ensures AllDigits(t) && FromDigits(t) == 10 * FromDigits(s) + (c as int - '0' as int)
  {
    assert t[..|t| - 1] == s;
  }

  lemma Pad8Value(n: nat)
    ensures FromDigits(Pad8(n)) == n
  {
    DecimalRoundTrip(n);
    if |ToDec(n)| < 8 {
      LeadingZeros(8 - |ToDec(n)|, ToDec(n));
    }
  }

  /** A part file's name gives back the part number it was made from, whatever the number. */
  lemma PartNameRoundTrip(n: nat)
    ensures |PartName(n)| >= 5 && PartNumber(PartName(n)) == Some(n)
  {
    var name := PartName(n);
    assert name[..|name| - 5] == Pad8(n);
    PyIntDigits(Pad8(n));
    Pad8Value(n);
  }

  function Pow10(k: nat): (p: nat)
    ensures p >= 1
  {
    if k == 0 then 1 else 10 * Pow10(k - 1)
  }

  lemma {:induction false} DigitsBound(s: string)
    requires AllDigits(s)
    ensures FromDigits(s) < Pow10(|s|)
  {
    if s != [] {
      DigitsBound(s[..|s| - 1]);
    }
  }

  lemma {:induction false} DecLength(n: nat, k: nat)
    requires k >= 1 && n < Pow10(k)
    ensures |ToDec(n)| <= k
  {
    if n >= 10 {
      assert k > 1 by { assert Pow10(1) == 10 * Pow10(0); }
      DecLength(n / 10, k - 1);
    }
  }

  lemma {:induction false} FromDigitsSplit(a: string, b: string)
    requires AllDigits(a) && AllDigits(b)
    ensures FromDigits(a + b) == FromDigits(a) * Pow10(|b|) + FromDigits(b)
  {
    if b == [] {
      assert a + b == a;
    } else {
      var b' := b[..|b| - 1];
      FromDigitsSplit(a, b');
      assert (a + b)[..|a + b| - 1] == a + b';
      ShiftDigit(FromDigits(a), Pow10(|b'|), FromDigits(b'), DigitValue(b[|b| - 1]));
    }
  }

  lemma ShiftDigit(x: nat, p: nat, y: nat, d: nat)
    ensures (x * p + y) * 10 + d == x * (10 * p) + (y * 10 + d)
  {}

  /** Digit strings of one length are ordered as strings exactly as they are as numbers. */
  lemma {:induction false} SameLengthOrder(a: string, b: string)
    requires AllDigits(a) && AllDigits(b) && |a| == |b|
    ensures LexLess(a, b) <==> FromDigits(a) < FromDigits(b)
  {
    if a != [] {
      var k := |a| - 1;
      var p := Pow10(k);
      assert a == [a[0]] + a[1..] && b == [b[0]] + b[1..];
      FromDigitsSplit([a[0]], a[1..]);
      FromDigitsSplit([b[0]], b[1..]);
      assert FromDigits([a[0]]) == DigitValue(a[0]) by { assert FromDigits([a[0]][..0]) == 0; }
      assert FromDigits([b[0]]) == DigitValue(b[0]) by { assert FromDigits([b[0]][..0]) == 0; }
      DigitsBound(a[1..]);
      DigitsBound(b[1..]);
      SameLengthOrder(a[1..], b[1..]);
      LeadingDigitDecides(DigitValue(a[0]), DigitValue(b[0]), p, FromDigits(a[1..]), FromDigits(b[1..]));
    }
  }

  lemma LeadingDigitDecides(x: nat, y: nat, p: nat, r: nat, s: nat)
    requires r < p && s < p
    ensures x < y ==> x * p + r < y * p + s
    ensures y < x ==> y * p + s < x * p + r
  {
    if x < y {
      assert (x + 1) * p <= y * p;
    }
    if y < x {
      assert (y + 1) * p <= x * p;
    }
  }

  lemma {:induction false} LexSuffix(a: string, b: string, s: string)
    requires |a| == |b|
    ensures LexLess(a + s, b + s) <==> LexLess(a, b)
    decreases |a|
  {
    if a == [] {
      assert a + s == s && b + s == s;
      LexIrreflexive(s);
    } else {
      LexSuffix(a[1..], b[1..], s);
      assert (a + s)[1..] == a[1..] + s && (b + s)[1..] == b[1..] + s;
    }
  }

  lemma {:induction false} LexIrreflexive(s: string)
    ensures !LexLess(s, s)
  {
    if s != [] {
      LexIrreflexive(s[1..]);
    }
  }

  /** Below 10^8 the file names sort as the part numbers do, so a sorted listing is in part order. */
  lemma PartNameOrder(m: nat, n: nat)
    requires m < 100_000_000 && n < 100_000_000
    ensures LexLess(PartName(m), PartName(n)) <==> m < n
  {
    assert Pow10(8) == 100_000_000 by {
      assert Pow10(4) == 10_000;
      assert Pow10(8) == 10 * (10 * (10 * (10 * Pow10(4))));
    }
    DecLength(m, 8);
    DecLength(n, 8);
    LexSuffix(Pad8(m), Pad8(n), ".part");
    SameLengthOrder(Pad8(m), Pad8(n));
    Pad8Value(m);
    Pad8Value(n);
  }

  lemma {:induction false} PowerNumeral(k: nat)
    ensures ToDec(Pow10(k))[0] == '1'
    ensures k > 0 ==> ToDec(Pow10(k) - 1)[0] == '9' && |ToDec(Pow10(k) - 1)| == k
    ensures |ToDec(Pow10(k))| == k + 1
  {
    if k > 0 {
      PowerNumeral(k - 1);
      assert Pow10(k) / 10 == Pow10(k - 1) && (Pow10(k) - 1) / 10 == Pow10(k - 1) - 1;
      if k == 1 {
        assert Pow10(0) == 1 && Pow10(1) - 1 == 9;
      }
    }
  }

  /** From 10^8 on the padding runs out: at every power of ten the string order is reversed. */
  lemma {:induction false} PartNameOrderBreaks(k: nat)
    requires k >= 8
    ensures LexLess(PartName(Pow10(k)), PartName(Pow10(k) - 1))
  {
    PowerNumeral(k);
    LongNames(Pow10(k), Pow10(k) - 1, ToDec(Pow10(k)), ToDec(Pow10(k) - 1));
  }

  lemma {:induction false} LongNames(m: nat, n: nat, a: string, b: string)
    requires a == ToDec(m) && b == ToDec(n) && |a| >= 8 && |b| >= 8 && a[0] < b[0]
    ensures LexLess(PartName(m), PartName(n))
  {
    FirstCharDecides(a, b, ".part");
  }

  lemma FirstCharDecides(a: string, b: string, s: string)
    requires a != [] && b != [] && a[0] < b[0]
    ensures LexLess(a + s, b + s)
  {}
}
