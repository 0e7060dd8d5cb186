/** HTTP Range headers: the server's parser, the SDK's printer, and what RFC 7233 says they mean. */
module Ranges {
  import opened Basics
  import opened Decimal

  /** Byte positions start..end, both included. */
  datatype ByteRange = ByteRange(start: int, end: int) {
    function Length(): int { end - start + 1 }
    ghost predicate Covers(i: int) { start <= i <= end }
  }

  datatype RangeError = RangeNotSatisfiable

  /** The position of the first `c` in `s`, or |s|. */
  function IndexOf(s: string, c: char): (i: nat)
    ensures i <= |s| && (i < |s| ==> s[i] == c) && forall j :: 0 <= j < i ==> s[j] != c
  {
    if s == [] || s[0] == c then 0 else 1 + IndexOf(s[1..], c)
  }

  function ParseByteRange(header: Option<string>, size: int): Result<Option<ByteRange>, RangeError> {
    if header.None? then Ok(None)
    else if !("bytes=" <= header.value) then Err(RangeNotSatisfiable)
    else
      var spec := Strip(header.value[6..]);
      if IndexOf(spec, ',') < |spec| then Err(RangeNotSatisfiable)
      else if IndexOf(spec, '-') == |spec| then Err(RangeNotSatisfiable)
      else
        var startText, endText := spec[..IndexOf(spec, '-')], spec[IndexOf(spec, '-') + 1..];
        Satisfy(ParseBounds(startText, endText, size), size)
  }

  /** The final check of the two ends against the size. */
  function Satisfy(bounds: Option<(int, int)>, size: int): Result<Option<ByteRange>, RangeError> {
    match bounds
    case None => Err(RangeNotSatisfiable)
    case Some((start, end)) =>
      if size <= 0 || start >= size || end < start then Err(RangeNotSatisfiable)
      else Ok(Some(ByteRange(start, Min(end, size - 1))))
  }

  /** The two ends before they are checked against the size; None where `int()` or the suffix check raises. */
  function ParseBounds(startText: string, endText: string, size: int): Option<(int, int)> {
    if startText == "" then
      match PyInt(endText)
      case None => None
      case Some(suffix) => if suffix <= 0 then None else Some((Max(0, size - suffix), size - 1))
    else
      match PyInt(startText)
      case None => None
      case Some(start) =>
        if endText == "" then Some((start, size - 1))
        else match PyInt(endText)
          case None => None
          case Some(end) => Some((start, end))
  }

  // ------------------------------------------------------------------ section 2.1 of RFC 7233

  /** A single byte-range-spec or suffix-byte-range-spec; each numeral is 1*DIGIT. */
  datatype RangeSpec =
    | FirstLast(first: string, last: string)
    | OpenEnded(first: string)
    | Suffix(length: string)

  predicate Numeral(s: string) { s != [] && AllDigits(s) }

  predicate Conforming(spec: RangeSpec) {
    match spec
    case FirstLast(a, b) => Numeral(a) && Numeral(b)
    case OpenEnded(a) => Numeral(a)
    case Suffix(n) => Numeral(n)
  }

  function Render(spec: RangeSpec): string {
    "bytes=" + match spec
               case FirstLast(a, b) => a + "-" + b
               case OpenEnded(a) => a + "-"
               case Suffix(n) => "-" + n
  }

  /** Byte position `i` of a representation of `size` bytes is selected by `spec`. */
  ghost predicate Selects(spec: RangeSpec, size: int, i: int)
    requires Conforming(spec)
  {
    0 <= i < size &&
    match spec
    case FirstLast(a, b) => FromDigits(a) <= i <= FromDigits(b)
    case OpenEnded(a) => FromDigits(a) <= i
    case Suffix(n) => size - FromDigits(n) <= i
  }

  /** The two numerals of a spec as the parser's split at the first dash finds them. */
  function Ends(spec: RangeSpec): (string, string) {
    match spec
    case FirstLast(a, b) => (a, b)
    case OpenEnded(a) => (a, "")
    case Suffix(n) => ("", n)
  }

  lemma DashPosition(s: string, a: string, b: string)
    requires AllDigits(a) && AllDigits(b) && s == a + ['-'] + b
    ensures IndexOf(s, '-') == |a| && s[..|a|] == a && s[|a| + 1..] == b
  {
    assert s[|a|] == '-';
    assert forall i :: 0 <= i < |a| ==> s[i] == a[i];
  }

  lemma NoCommaNoBlank(s: string, a: string, b: string)
    requires AllDigits(a) && AllDigits(b) && s == a + ['-'] + b
    ensures IndexOf(s, ',') == |s| && Strip(s) == s
  {
    assert forall i :: 0 <= i < |s| ==> s[i] == '-' || IsDigit(s[i]);
    StripTight(s);
  }

  lemma RenderedBounds(spec: RangeSpec, size: int)
    requires Conforming(spec)
    ensures ParseByteRange(Some(Render(spec)), size) == Satisfy(ParseBounds(Ends(spec).0, Ends(spec).1, size), size)
  {
    var (a, b) := Ends(spec);
    var s := a + ['-'] + b;
    assert Render(spec) == "bytes=" + s by {
      match spec
      case FirstLast(_, _) => assert a + "-" + b == s;
      case OpenEnded(_) => assert a + "-" == s;
      case Suffix(_) => assert "-" + b == s;
    }
    assert Render(spec)[6..] == s;
    DashPosition(s, a, b);
    NoCommaNoBlank(s, a, b);
  }

  lemma NumeralEnds(spec: RangeSpec, size: int)
    requires Conforming(spec)
    ensures ParseBounds(Ends(spec).0, Ends(spec).1, size) ==
      match spec
      case FirstLast(a, b) => Some((FromDigits(a), FromDigits(b)))
      case OpenEnded(a) => Some((FromDigits(a), size - 1))
      case Suffix(n) => if FromDigits(n) == 0 then None else Some((Max(0, size - FromDigits(n)), size - 1))
  {
    match spec
    case FirstLast(a, b) => PyIntDigits(a); PyIntDigits(b);
    case OpenEnded(a) => PyIntDigits(a);
    case Suffix(n) => PyIntDigits(n);
  }

  /**
   * For every conforming header and every size the parser returns exactly the selected positions,
   * and refuses exactly when nothing is selected.
   */
  lemma {:induction false} ParserMeetsRfc(spec: RangeSpec, size: int)
    requires Conforming(spec)
    ensures match ParseByteRange(Some(Render(spec)), size)
            case Ok(None) => false
            case Ok(Some(r)) => Selects(spec, size, r.start) && forall i :: r.Covers(i) <==> Selects(spec, size, i)
            case Err(_) => forall i :: !Selects(spec, size, i)
  {
    RenderedBounds(spec, size);
    NumeralEnds(spec, size);
  }

  lemma {:induction false} NumeralSigns(s: string)
    requires IndexOf(s, '-') == |s|
    ensures PyInt(s).Some? ==> PyInt(s).value >= 0
  {
    StripKeeps(s);
    assert '-' !in s;
  }

  lemma {:induction false} StripKeeps(s: string)
    ensures forall c :: c in Strip(s) ==> c in s
  {
    StripLeftKeeps(s);
    StripRightKeeps(StripLeft(s));
  }

  lemma {:induction false} StripLeftKeeps(s: string)
    ensures forall c :: c in StripLeft(s) ==> c in s
  {
    if s != [] && IsSpace(s[0]) {
      StripLeftKeeps(s[1..]);
      assert forall c :: c in s[1..] ==> c in s;
    }
  }

  lemma {:induction false} StripRightKeeps(s: string)
    ensures forall c :: c in StripRight(s) ==> c in s
  {
    if s != [] && IsSpace(s[|s| - 1]) {
      StripRightKeeps(s[..|s| - 1]);
      assert forall c :: c in s[..|s| - 1] ==> c in s;
    }
  }

  /** Whatever the header, well formed or not, a returned range is non-empty and inside the file. */
  lemma RangeInBounds(header: Option<string>, size: int)
    ensures match ParseByteRange(header, size)
            case Ok(Some(r)) => 0 <= r.start <= r.end < size && 1 <= r.Length() <= size
            case _ => true
  {
    if header.Some? && "bytes=" <= header.value {
      var spec := Strip(header.value[6..]);
      var i := IndexOf(spec, '-');
      assert IndexOf(spec[..i], '-') == i by {
        assert forall j :: 0 <= j < i ==> spec[..i][j] != '-';
      }
      NumeralSigns(spec[..i]);
    }
  }

  /** The header a download worker sends: `f"bytes={start}-{end}"`. */
  function PrintRange(start: nat, end: nat): string {
    Render(FirstLast(ToDec(start), ToDec(end)))
  }

  /** Printing a range inside the file and parsing it gives the range back. */
  lemma PrintParse(start: nat, end: nat, size: int)
    requires start <= end < size
    ensures ParseByteRange(Some(PrintRange(start, end)), size) == Ok(Some(ByteRange(start, end)))
  {
    var spec := FirstLast(ToDec(start), ToDec(end));
    RenderedBounds(spec, size);
    NumeralEnds(spec, size);
    DecimalRoundTrip(start);
    DecimalRoundTrip(end);
  }

  // ------------------------------------------------------------------ Content-Range

  /** The 206 response header: `bytes start-end/total`. */
  function ContentRange(r: ByteRange, total: nat): string
    requires 0 <= r.start && 0 <= r.end
  {
    "bytes " + ToDec(r.start) + "-" + ToDec(r.end) + "/" + ToDec(total)
  }

  /** The position after the last '/', or 0. */
  function AfterLastSlash(s: string): (i: nat)
    ensures i <= |s|
  {
    if s == [] then 0 else if s[|s| - 1] == '/' then |s| else AfterLastSlash(s[..|s| - 1])
  }

  /** `int(header.rsplit("/", 1)[1])`; None where Python raises. */
  function ContentRangeTotal(header: string): Option<int> {
    if AfterLastSlash(header) == 0 then None else PyInt(header[AfterLastSlash(header)..])
  }

  lemma {:induction false} LastSlash(a: string, b: string)
    requires forall i :: 0 <= i < |b| ==> b[i] != '/'
    ensures AfterLastSlash(a + "/" + b) == |a| + 1
  {
    var s := a + "/" + b;
    if b != [] {
      LastSlash(a, b[..|b| - 1]);
      assert s[..|s| - 1] == a + "/" + b[..|b| - 1];
      assert s[|s| - 1] == b[|b| - 1];
    }
  }

  /** The SDK reads back the total the server wrote into the probe's Content-Range header. */
  lemma ContentRangeRoundTrip(r: ByteRange, total: nat)
    requires 0 <= r.start && 0 <= r.end
    ensures ContentRangeTotal(ContentRange(r, total)) == Some(total)
  {
    var a := "bytes " + ToDec(r.start) + "-" + ToDec(r.end);
    LastSlash(a, ToDec(total));
    assert ContentRange(r, total)[|a| + 1..] == ToDec(total);
    PyIntDigits(ToDec(total));
    DecimalRoundTrip(total);
  }

  /** A body as the network delivers it: pieces of the given sizes (zero allowed), then the rest. */
  function Chop(body: bytes, cuts: seq<nat>): (chunks: seq<bytes>)
    ensures Flatten(chunks) == body
    decreases |cuts|
  {
    if cuts == [] then
      assert [body][1..] == [];
      [body]
    else
      var n := Min(cuts[0], |body|);
      [body[..n]] + Chop(body[n..], cuts[1..])
  }
}
