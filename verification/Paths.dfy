/**
 * Relative path normalisation, on the server and in the SDK, and the object keys made from it.
 * Unicode NFC is a parameter `nfc` of which only the facts in NfcLike are used.
 */
module Paths {
  import opened Basics
  import opened Text

  datatype PathError =
    | NulCharacter | ControlCharacter | AbsolutePath | DrivePath | ParentTraversal | UnsafeSegment
    | EmptyPath | TooDeep | TooLong

  const DEFAULT_DEPTH: nat := 64
  const DEFAULT_BYTES: nat := 1024

  predicate IsControl(c: char) { c < ' ' || c == '\U{7F}' }

  predicate HasControl(s: string) { exists i :: 0 <= i < |s| && IsControl(s[i]) }

  /** `raw_path.replace("\\", "/")` */
  function ToPosix(s: string): (r: string)
    ensures |r| == |s| && forall i :: 0 <= i < |s| ==> r[i] == if s[i] == '\\' then '/' else s[i]
  {
    if s == [] then [] else [if s[0] == '\\' then '/' else s[0]] + ToPosix(s[1..])
  }

  /** `len(s.encode("utf-8"))` */
  function Utf8Length(s: string): nat {
    if s == [] then 0
    else Utf8Length(s[1..]) +
         (if s[0] < '\U{80}' then 1 else if s[0] < '\U{800}' then 2 else if s[0] < '\U{10000}' then 3 else 4)
  }

  const UNSAFE: set<string> := {"~", "*", "?", "\"", "<", ">", "|"}

  /** The segment loop: blank and "." segments are dropped, the first forbidden one is an error. */
  function Kept(parts: seq<string>, unsafe: set<string>): Result<seq<string>, PathError> {
    if parts == [] then Ok([])
    else if parts[0] == "" || parts[0] == "." then Kept(parts[1..], unsafe)
    else if parts[0] == ".." then Err(ParentTraversal)
    else if parts[0] in unsafe then Err(UnsafeSegment)
    else match Kept(parts[1..], unsafe)
      case Err(e) => Err(e)
      case Ok(rest) => Ok([parts[0]] + rest)
  }

  function CheckParts(parts: seq<string>, maximumDepth: int, maximumBytes: int): Result<string, PathError> {
    var normalized := Join(parts, '/');
    if normalized == "" then Err(EmptyPath)
    else if |parts| > maximumDepth then Err(TooDeep)
    else if Utf8Length(normalized) > maximumBytes then Err(TooLong)
    else Ok(normalized)
  }

  /** What both implementations do with the path once it is NFC with forward slashes. */
  function NormalizeNfc(path: string, unsafe: set<string>, maximumDepth: int, maximumBytes: int)
    : Result<string, PathError>
  {
    if "/" <= path then Err(AbsolutePath)
    else if |path| >= 2 && path[1] == ':' then Err(DrivePath)
    else match Kept(Split(path, '/'), unsafe)
      case Err(e) => Err(e)
      case Ok(parts) => CheckParts(parts, maximumDepth, maximumBytes)
  }

  function ServerNormalize(nfc: string -> string, raw: string, maximumDepth: int, maximumBytes: int)
    : Result<string, PathError>
  {
    if '\0' in raw then Err(NulCharacter)
    else if HasControl(raw) then Err(ControlCharacter)
    else NormalizeNfc(nfc(ToPosix(raw)), UNSAFE, maximumDepth, maximumBytes)
  }

  function SdkNormalize(nfc: string -> string, raw: string, maximumDepth: int, maximumBytes: int)
    : Result<string, PathError>
  {
    NormalizeNfc(nfc(ToPosix(raw)), {}, maximumDepth, maximumBytes)
  }

  /** `prefix.strip("/")` */
  function StripSlashes(s: string): string {
    if s != [] && s[0] == '/' then StripSlashes(s[1..])
    else if s != [] && s[|s| - 1] == '/' then StripSlashes(s[..|s| - 1])
    else s
  }

  function JoinPrefix(nfc: string -> string, prefix: string, relative: string): Result<string, PathError> {
    match ServerNormalize(nfc, relative, DEFAULT_DEPTH, DEFAULT_BYTES)
    case Err(e) => Err(e)
    case Ok(normalized) =>
      if StripSlashes(prefix) == "" then Ok(normalized) else Ok(StripSlashes(prefix) + "/" + normalized)
  }

  // ------------------------------------------------------------------ the loops

  method NormalizeOnServer(nfc: string -> string, raw: string, maximumDepth: int, maximumBytes: int)
    returns (r: Result<string, PathError>)
    ensures r == ServerNormalize(nfc, raw, maximumDepth, maximumBytes)
  {
    if '\0' in raw {
      return Err(NulCharacter);
    }
    if HasControl(raw) {
      return Err(ControlCharacter);
    }
    var path := nfc(ToPosix(raw));
    if "/" <= path {
      return Err(AbsolutePath);
    }
    if |path| >= 2 && path[1] == ':' {
      return Err(DrivePath);
    }
    var segments := Split(path, '/');
    var parts: seq<string> := [];
    assert segments[0..] == segments;
    PrependNone(Kept(segments, UNSAFE));
    for i := 0 to |segments|
      invariant Kept(segments, UNSAFE) == Prepend(parts, Kept(segments[i..], UNSAFE))
    {
      var part := segments[i];
      assert segments[i..][1..] == segments[i + 1..];
      if part == "" || part == "." {
        continue;
      }
      if part == ".." {
        return Err(ParentTraversal);
      }
      if part in UNSAFE {
        return Err(UnsafeSegment);
      }
      PrependOne(parts, part, Kept(segments[i + 1..], UNSAFE));
      parts := parts + [part];
    }
    assert segments[|segments|..] == [] && parts + [] == parts;
    return CheckParts(parts, maximumDepth, maximumBytes);
  }

  method NormalizeInSdk(nfc: string -> string, raw: string, maximumDepth: int, maximumBytes: int)
    returns (r: Result<string, PathError>)
    ensures r == SdkNormalize(nfc, raw, maximumDepth, maximumBytes)
  {
    var path := nfc(ToPosix(raw));
    if "/" <= path {
      return Err(AbsolutePath);
    }
    if |path| >= 2 && path[1] == ':' {
      return Err(DrivePath);
    }
    var segments := Split(path, '/');
    var parts: seq<string> := [];
    assert segments[0..] == segments;
    PrependNone(Kept(segments, {}));
    for i := 0 to |segments|
      invariant Kept(segments, {}) == Prepend(parts, Kept(segments[i..], {}))
    {
      var part := segments[i];
      assert segments[i..][1..] == segments[i + 1..];
      if part == "" || part == "." {
        continue;
      }
      if part == ".." {
        return Err(ParentTraversal);
      }
      PrependOne(parts, part, Kept(segments[i + 1..], {}));
      parts := parts + [part];
    }
    assert segments[|segments|..] == [] && parts + [] == parts;
    return CheckParts(parts, maximumDepth, maximumBytes);
  }

  ghost function Prepend(parts: seq<string>, r: Result<seq<string>, PathError>): Result<seq<string>, PathError> {
    match r case Err(e) => Err(e) case Ok(rest) => Ok(parts + rest)
  }

  lemma PrependNone(r: Result<seq<string>, PathError>)
    ensures Prepend([], r) == r
  {
    if r.Ok? {
      assert [] + r.value == r.value;
    }
  }

  lemma PrependOne(parts: seq<string>, part: string, r: Result<seq<string>, PathError>)
    ensures Prepend(parts + [part], r) == Prepend(parts, Prepend([part], r))
  {
    if r.Ok? {
      assert parts + [part] + r.value == parts + ([part] + r.value);
    }
  }

  // ------------------------------------------------------------------ NFC

  /** Idempotent, acts on each '/'-segment separately, and adds no separator or control character. */
  ghost predicate NfcLike(nfc: string -> string) {
    && (forall s {:trigger nfc(nfc(s))} :: nfc(nfc(s)) == nfc(s))
    && (forall a, b :: nfc(a + "/" + b) == nfc(a) + "/" + nfc(b))
    && (forall s, c {:trigger c in nfc(s)} ::
          c in nfc(s) && (c == '/' || c == '\\' || IsControl(c)) ==> c in s)
  }

  lemma {:induction false} NfcSegments(nfc: string -> string, parts: seq<string>)
    requires NfcLike(nfc) && parts != [] && forall i :: 0 <= i < |parts| ==> '/' !in parts[i]
    ensures |Split(nfc(Join(parts, '/')), '/')| == |parts|
    ensures forall i :: 0 <= i < |parts| ==> Split(nfc(Join(parts, '/')), '/')[i] == nfc(parts[i])
  {
    assert '/' !in nfc(parts[0]);
    if |parts| == 1 {
      SplitWhole(nfc(parts[0]), '/');
    } else {
      var rest := Join(parts[1..], '/');
      NfcSegments(nfc, parts[1..]);
      assert nfc(parts[0] + "/" + rest) == nfc(parts[0]) + "/" + nfc(rest);
      SplitUnit(nfc(parts[0]), nfc(rest), '/');
    }
  }

  /** Segments of an NFC path are NFC themselves. */
  lemma SegmentsAreNfc(nfc: string -> string, s: string, i: nat)
    requires NfcLike(nfc) && i < |Split(nfc(s), '/')|
    ensures nfc(Split(nfc(s), '/')[i]) == Split(nfc(s), '/')[i]
  {
    JoinSplit(s, '/');
    NfcSegments(nfc, Split(s, '/'));
    assert nfc(nfc(Split(s, '/')[i])) == nfc(Split(s, '/')[i]);
  }

  lemma FixedUnderNfc(nfc: string -> string, parts: seq<string>)
    requires NfcLike(nfc) && parts != []
    requires forall i :: 0 <= i < |parts| ==> '/' !in parts[i] && nfc(parts[i]) == parts[i]
    ensures nfc(Join(parts, '/')) == Join(parts, '/')
  {
    NfcSegments(nfc, parts);
    assert Split(nfc(Join(parts, '/')), '/') == parts;
    JoinSplit(nfc(Join(parts, '/')), '/');
  }

  // ------------------------------------------------------------------ kept segments

  ghost predicate Clean(part: string, unsafe: set<string>) {
    part != "" && part != "." && part != ".." && part !in unsafe
  }

  lemma {:induction false} KeptClean(parts: seq<string>, unsafe: set<string>)
    requires Kept(parts, unsafe).Ok?
    ensures forall p :: p in Kept(parts, unsafe).value ==> p in parts && Clean(p, unsafe)
  {
    if parts != [] {
      if parts[0] == "" || parts[0] == "." {
        KeptClean(parts[1..], unsafe);
      } else {
        KeptClean(parts[1..], unsafe);
      }
      assert forall p :: p in parts[1..] ==> p in parts;
    }
  }

  lemma {:induction false} KeptAll(parts: seq<string>, unsafe: set<string>)
    requires forall p :: p in parts ==> Clean(p, unsafe)
    ensures Kept(parts, unsafe) == Ok(parts)
  {
    if parts != [] {
      assert parts[0] in parts && forall p :: p in parts[1..] ==> p in parts;
      KeptAll(parts[1..], unsafe);
      assert [parts[0]] + parts[1..] == parts;
    }
  }

  lemma {:induction false} KeptWithout(parts: seq<string>, unsafe: set<string>)
    requires "" !in unsafe && "." !in unsafe && ".." !in unsafe
    ensures Kept(parts, unsafe).Ok? ==> Kept(parts, {}) == Kept(parts, unsafe)
    ensures Kept(parts, unsafe).Ok? <==> Kept(parts, {}).Ok? && forall p :: p in parts ==> p !in unsafe
  {
    if parts != [] {
      KeptWithout(parts[1..], unsafe);
      assert forall p :: p in parts <==> p == parts[0] || p in parts[1..];
    }
  }

  // ------------------------------------------------------------------ results

  lemma NoSeparatorLeft(nfc: string -> string, raw: string)
    requires NfcLike(nfc)
    ensures '\\' !in nfc(ToPosix(raw))
  {
    assert '\\' !in ToPosix(raw);
  }

  lemma NoControlAdded(nfc: string -> string, raw: string)
    requires NfcLike(nfc) && !HasControl(raw)
    ensures forall c :: c in nfc(ToPosix(raw)) ==> !IsControl(c)
  {
    assert forall c :: c in ToPosix(raw) ==> !IsControl(c);
  }

  lemma PosixIdentity(s: string)
    requires '\\' !in s
    ensures ToPosix(s) == s
  {}

  /** The shape of every accepted path: clean NFC segments joined by single slashes. */
  lemma AcceptedShape(nfc: string -> string, raw: string, unsafe: set<string>, d: int, b: int)
    returns (parts: seq<string>)
    requires NfcLike(nfc) && NormalizeNfc(nfc(ToPosix(raw)), unsafe, d, b).Ok?
    ensures parts != [] && Join(parts, '/') == NormalizeNfc(nfc(ToPosix(raw)), unsafe, d, b).value
    ensures forall p :: p in parts ==> Clean(p, unsafe) && p in Split(nfc(ToPosix(raw)), '/')
    ensures forall i :: 0 <= i < |parts| ==> '/' !in parts[i] && nfc(parts[i]) == parts[i] && '\\' !in parts[i]
    ensures CheckParts(parts, d, b).Ok?
  {
    var x := nfc(ToPosix(raw));
    parts := Kept(Split(x, '/'), unsafe).value;
    KeptClean(Split(x, '/'), unsafe);
    NoSeparatorLeft(nfc, raw);
    forall i | 0 <= i < |parts|
      ensures '/' !in parts[i] && nfc(parts[i]) == parts[i] && '\\' !in parts[i]
    {
      assert parts[i] in parts;
      var k :| 0 <= k < |Split(x, '/')| && Split(x, '/')[k] == parts[i];
      SegmentsAreNfc(nfc, ToPosix(raw), k);
      if '\\' in parts[i] { SplitChars(x, k, '\\', '/'); }
    }
  }

  lemma NormalizeAgain(nfc: string -> string, parts: seq<string>, unsafe: set<string>, d: int, b: int)
    requires NfcLike(nfc) && parts != [] && CheckParts(parts, d, b).Ok?
    requires forall p :: p in parts ==> Clean(p, unsafe)
    requires forall i :: 0 <= i < |parts| ==> '/' !in parts[i] && nfc(parts[i]) == parts[i] && '\\' !in parts[i]
    ensures var p := Join(parts, '/');
      NormalizeNfc(nfc(ToPosix(p)), unsafe, d, b) == if |p| >= 2 && p[1] == ':' then Err(DrivePath) else Ok(p)
  {
    var p := Join(parts, '/');
    if '\\' in p { JoinChars(parts, '\\', '/'); }
    PosixIdentity(p);
    FixedUnderNfc(nfc, parts);
    SplitJoin(parts, '/');
    KeptAll(parts, unsafe);
    assert parts[0] in parts && parts[0] != "";
    assert p[0] == parts[0][0];
  }

  /**
   * Server fixed point: normalising an accepted path again returns it unchanged, except that a path
   * whose second character is ':' is now refused as a drive path.
   */
  lemma ServerFixedPoint(nfc: string -> string, raw: string, d: int, b: int)
    requires NfcLike(nfc) && ServerNormalize(nfc, raw, d, b).Ok?
    ensures var p := ServerNormalize(nfc, raw, d, b).value;
      ServerNormalize(nfc, p, d, b) == if |p| >= 2 && p[1] == ':' then Err(DrivePath) else Ok(p)
  {
    var parts := AcceptedShape(nfc, raw, UNSAFE, d, b);
    var p := Join(parts, '/');
    NoControlAdded(nfc, raw);
    forall i | 0 <= i < |p| ensures !IsControl(p[i]) {
      assert p[i] in p;
      JoinChars(parts, p[i], '/');
      if p[i] != '/' {
        var k :| 0 <= k < |parts| && p[i] in parts[k];
        assert parts[k] in parts;
        var x := nfc(ToPosix(raw));
        var m :| 0 <= m < |Split(x, '/')| && Split(x, '/')[m] == parts[k];
        SplitChars(x, m, p[i], '/');
      }
    }
    assert '\0' !in p;
    NormalizeAgain(nfc, parts, UNSAFE, d, b);
  }

  /** SDK fixed point, with the same single exception. */
  lemma SdkFixedPoint(nfc: string -> string, raw: string, d: int, b: int)
    requires NfcLike(nfc) && SdkNormalize(nfc, raw, d, b).Ok?
    ensures var p := SdkNormalize(nfc, raw, d, b).value;
      SdkNormalize(nfc, p, d, b) == if |p| >= 2 && p[1] == ':' then Err(DrivePath) else Ok(p)
  {
    var parts := AcceptedShape(nfc, raw, {}, d, b);
    NormalizeAgain(nfc, parts, {}, d, b);
  }

  /**
   * The two implementations agree: the server accepts exactly the paths the SDK accepts that hold no
   * control character and no unsafe segment, and then both return the same path.
   */
  lemma ServerSdkAgree(nfc: string -> string, raw: string, d: int, b: int)
    ensures ServerNormalize(nfc, raw, d, b).Ok? <==>
      && SdkNormalize(nfc, raw, d, b).Ok? && !HasControl(raw)
      && forall p :: p in Split(nfc(ToPosix(raw)), '/') ==> p !in UNSAFE
    ensures ServerNormalize(nfc, raw, d, b).Ok? ==> SdkNormalize(nfc, raw, d, b) == ServerNormalize(nfc, raw, d, b)
  {
    KeptWithout(Split(nfc(ToPosix(raw)), '/'), UNSAFE);
    assert '\0' in raw ==> HasControl(raw) by {
      if '\0' in raw {
        var i :| 0 <= i < |raw| && raw[i] == '\0';
      }
    }
  }

  /** The limits only decide acceptance, never the result. */
  lemma LimitsDoNotMatter(nfc: string -> string, raw: string, d: int, b: int, d': int, b': int)
    ensures ServerNormalize(nfc, raw, d, b).Ok? && ServerNormalize(nfc, raw, d', b').Ok? ==>
      ServerNormalize(nfc, raw, d, b) == ServerNormalize(nfc, raw, d', b')
    ensures SdkNormalize(nfc, raw, d, b).Ok? && SdkNormalize(nfc, raw, d', b').Ok? ==>
      SdkNormalize(nfc, raw, d, b) == SdkNormalize(nfc, raw, d', b')
  {}

  /** A path the SDK produced, if the server accepts it under any limits, is kept as it is. */
  lemma SdkOutputKept(nfc: string -> string, raw: string, d: int, b: int, d': int, b': int)
    requires NfcLike(nfc) && SdkNormalize(nfc, raw, d, b).Ok?
    ensures var p := SdkNormalize(nfc, raw, d, b).value;
      ServerNormalize(nfc, p, d', b').Ok? ==> ServerNormalize(nfc, p, d', b') == Ok(p)
  {
    var p := SdkNormalize(nfc, raw, d, b).value;
    SdkFixedPoint(nfc, raw, d, b);
    ServerSdkAgree(nfc, p, d', b');
    LimitsDoNotMatter(nfc, p, d, b, d', b');
  }

  /** Likewise for a path the server itself produced. */
  lemma ServerOutputKept(nfc: string -> string, raw: string, d: int, b: int, d': int, b': int)
    requires NfcLike(nfc) && ServerNormalize(nfc, raw, d, b).Ok?
    ensures var p := ServerNormalize(nfc, raw, d, b).value;
      ServerNormalize(nfc, p, d', b').Ok? ==> ServerNormalize(nfc, p, d', b') == Ok(p)
  {
    ServerFixedPoint(nfc, raw, d, b);
    LimitsDoNotMatter(nfc, ServerNormalize(nfc, raw, d, b).value, d, b, d', b');
  }

  /** Under one prefix, different normalised paths get different object keys. */
  lemma JoinPrefixInjective(nfc: string -> string, prefix: string, raw1: string, raw2: string, d: int, b: int)
    requires NfcLike(nfc) && ServerNormalize(nfc, raw1, d, b).Ok? && ServerNormalize(nfc, raw2, d, b).Ok?
    ensures var p, q := ServerNormalize(nfc, raw1, d, b).value, ServerNormalize(nfc, raw2, d, b).value;
      JoinPrefix(nfc, prefix, p).Ok? && JoinPrefix(nfc, prefix, p) == JoinPrefix(nfc, prefix, q) ==> p == q
  {
    var p, q := ServerNormalize(nfc, raw1, d, b).value, ServerNormalize(nfc, raw2, d, b).value;
    ServerOutputKept(nfc, raw1, d, b, DEFAULT_DEPTH, DEFAULT_BYTES);
    ServerOutputKept(nfc, raw2, d, b, DEFAULT_DEPTH, DEFAULT_BYTES);
    var s := StripSlashes(prefix) + "/";
    if JoinPrefix(nfc, prefix, p).Ok? && JoinPrefix(nfc, prefix, p) == JoinPrefix(nfc, prefix, q) && s != "/" {
      assert (s + p)[|s|..] == p && (s + q)[|s|..] == q;
    }
  }

  /** Accepted paths are non-empty, relative, and hold no "..", no blank segment and no backslash. */
  lemma AcceptedIsSafe(nfc: string -> string, raw: string, d: int, b: int)
    requires NfcLike(nfc) && ServerNormalize(nfc, raw, d, b).Ok?
    ensures var p := ServerNormalize(nfc, raw, d, b).value;
      && p != "" && p[0] != '/' && '\\' !in p && |Split(p, '/')| <= d && Utf8Length(p) <= b
      && forall s :: s in Split(p, '/') ==> s != "" && s != "." && s != ".." && s !in UNSAFE
  {
    var parts := AcceptedShape(nfc, raw, UNSAFE, d, b);
    SplitJoin(parts, '/');
    assert parts[0] in parts;
    if '\\' in Join(parts, '/') { JoinChars(parts, '\\', '/'); }
  }

  // ------------------------------------------------------------------ exactly which paths are accepted

  /** The segments that name something: neither blank nor ".". */
  function Named(parts: seq<string>): (names: seq<string>) {
    if parts == [] then []
    else (if parts[0] == "" || parts[0] == "." then [] else [parts[0]]) + Named(parts[1..])
  }

  /** A segment no path may have. */
  predicate Forbidden(name: string, unsafe: set<string>) { name == ".." || name in unsafe }

  /** None of the names is forbidden. */
  ghost predicate Free(names: seq<string>, unsafe: set<string>) { forall p :: p in names ==> !Forbidden(p, unsafe) }

  lemma FreeFirst(name: string, rest: seq<string>, unsafe: set<string>)
    ensures Free([name] + rest, unsafe) <==> !Forbidden(name, unsafe) && Free(rest, unsafe)
  {
    assert forall p :: p in [name] + rest <==> p == name || p in rest;
  }

  lemma {:induction false} KeptIsNamed(parts: seq<string>, unsafe: set<string>)
    ensures Kept(parts, unsafe).Ok? <==> Free(Named(parts), unsafe)
    ensures Kept(parts, unsafe).Ok? ==> Kept(parts, unsafe).value == Named(parts)
    ensures Kept(parts, unsafe).Err? ==> Kept(parts, unsafe).error in {ParentTraversal, UnsafeSegment}
    ensures "" !in Named(parts)
  {
    if parts != [] {
      KeptIsNamed(parts[1..], unsafe);
      if parts[0] != "" && parts[0] != "." { FreeFirst(parts[0], Named(parts[1..]), unsafe); }
    }
  }

  lemma {:induction false} JoinedNotEmpty(names: seq<string>)
    requires "" !in names
    ensures Join(names, '/') == "" <==> names == []
  {
    if names != [] { assert names[0] in names; }
  }

  /** The limits, on the named segments. */
  lemma LimitsExactly(names: seq<string>, d: int, b: int)
    requires "" !in names
    ensures var r := CheckParts(names, d, b);
      && (r == Err(EmptyPath) <==> names == [])
      && (r == Err(TooDeep) <==> names != [] && |names| > d)
      && (r == Err(TooLong) <==> names != [] && |names| <= d && Utf8Length(Join(names, '/')) > b)
      && (r == Ok(Join(names, '/')) <==> names != [] && |names| <= d && Utf8Length(Join(names, '/')) <= b)
      && (r.Ok? ==> r == Ok(Join(names, '/'))) && (r.Err? ==> r.error in {EmptyPath, TooDeep, TooLong})
  {
    JoinedNotEmpty(names);
  }

  /** The path is neither absolute nor on a drive. */
  predicate Relative(text: string) { !(text != "" && text[0] == '/') && !(|text| >= 2 && text[1] == ':') }

  /** What both implementations decide about a path that is NFC with forward slashes. */
  lemma {:induction false} NormalizedExactly(text: string, unsafe: set<string>, d: int, b: int, names: seq<string>)
    requires names == Named(Split(text, '/'))
    ensures var r := NormalizeNfc(text, unsafe, d, b);
      && (r == Err(AbsolutePath) <==> text != "" && text[0] == '/')
      && (r == Err(DrivePath) <==> !(text != "" && text[0] == '/') && !Relative(text))
      && (r == Err(ParentTraversal) || r == Err(UnsafeSegment) <==> Relative(text) && !Free(names, unsafe))
      && (Relative(text) && Free(names, unsafe) ==> r == CheckParts(names, d, b))
      && (r.Ok? ==> Relative(text) && Free(names, unsafe))
  {
    KeptIsNamed(Split(text, '/'), unsafe);
    LimitsExactly(names, d, b);
    assert "/" <= text <==> text != "" && text[0] == '/';
  }

  /** No character of the path is a control character. */
  ghost predicate Printable(raw: string) { forall c :: c in raw ==> c >= ' ' && c != '\U{7F}' }

  lemma ControlMeans(raw: string)
    ensures HasControl(raw) <==> !Printable(raw)
  {
    if !Printable(raw) {
      var c :| c in raw && !(c >= ' ' && c != '\U{7F}');
      var i :| 0 <= i < |raw| && raw[i] == c;
      assert IsControl(raw[i]);
    }
    if HasControl(raw) {
      var i :| 0 <= i < |raw| && IsControl(raw[i]);
      assert raw[i] in raw;
    }
  }

  /** The names fit the limits. */
  ghost predicate Fitting(names: seq<string>, d: int, b: int) {
    names != [] && |names| <= d && Utf8Length(Join(names, '/')) <= b
  }

  /**
   * Exactly which paths the server accepts, and what it makes of them: no control character, neither
   * absolute nor a drive, no ".." and no unsafe segment, something named, within both limits; the result is
   * the named segments joined.
   */
  lemma {:induction false} ServerAcceptsExactly(nfc: string -> string, raw: string, d: int, b: int)
    ensures var (r, text) := (ServerNormalize(nfc, raw, d, b), nfc(ToPosix(raw)));
      var names := Named(Split(text, '/'));
      && (r == Err(NulCharacter) <==> '\0' in raw)
      && (r == Err(ControlCharacter) <==> '\0' !in raw && !Printable(raw))
      && (r.Ok? <==> Printable(raw) && Relative(text) && Free(names, UNSAFE) && Fitting(names, d, b))
      && (r.Ok? ==> r.value == Join(names, '/'))
    ensures UNSAFE == {"~", "*", "?", "\"", "<", ">", "|"}
  {
    var text := nfc(ToPosix(raw));
    NormalizedExactly(text, UNSAFE, d, b, Named(Split(text, '/')));
    NamesNotEmpty(Split(text, '/'));
    LimitsExactly(Named(Split(text, '/')), d, b);
    ControlMeans(raw);
    NoLexicalErrors(text, UNSAFE, d, b);
    assert '\0' in raw ==> !Printable(raw);
  }

  lemma {:induction false} NamesNotEmpty(parts: seq<string>)
    ensures "" !in Named(parts)
  {
    if parts != [] { NamesNotEmpty(parts[1..]); }
  }

  /** Once the characters are fine, the answer is not about characters. */
  lemma {:induction false} NoLexicalErrors(text: string, unsafe: set<string>, d: int, b: int)
    ensures NormalizeNfc(text, unsafe, d, b) != Err(NulCharacter)
    ensures NormalizeNfc(text, unsafe, d, b) != Err(ControlCharacter)
  {
    KeptIsNamed(Split(text, '/'), unsafe);
  }

  /** The same for the SDK, which knows neither control characters nor unsafe segments. */
  lemma {:induction false} SdkAcceptsExactly(nfc: string -> string, raw: string, d: int, b: int)
    ensures var (r, text) := (SdkNormalize(nfc, raw, d, b), nfc(ToPosix(raw)));
      var names := Named(Split(text, '/'));
      && (r.Ok? <==> Relative(text) && ".." !in names && Fitting(names, d, b))
      && (r.Ok? ==> r.value == Join(names, '/'))
  {
    var text := nfc(ToPosix(raw));
    NormalizedExactly(text, {}, d, b, Named(Split(text, '/')));
    NamesNotEmpty(Split(text, '/'));
    LimitsExactly(Named(Split(text, '/')), d, b);
    assert Free(Named(Split(text, '/')), {}) <==> ".." !in Named(Split(text, '/'));
  }

  /** The bytes of a character (section 3 of RFC 3629). */
  function Utf8(c: char): seq<int> {
    var n := c as int;
    if n < 0x80 then [n]
    else if n < 0x800 then [0xC0 + n / 0x40, 0x80 + n % 0x40]
    else if n < 0x10000 then [0xE0 + n / 0x1000, 0x80 + n / 0x40 % 0x40, 0x80 + n % 0x40]
    else [0xF0 + n / 0x40000, 0x80 + n / 0x1000 % 0x40, 0x80 + n / 0x40 % 0x40, 0x80 + n % 0x40]
  }

  function Encoded(s: string): seq<int> { if s == [] then [] else Utf8(s[0]) + Encoded(s[1..]) }

  /** The character can be read back from its bytes, by their number. */
  lemma Utf8Decodes(c: char)
    ensures var b := Utf8(c);
      && 1 <= |b| <= 4 && (forall i :: 1 <= i < |b| ==> 0x80 <= b[i] < 0xC0)
      && (|b| == 1 ==> b[0] == c as int < 0x80)
      && (|b| == 2 ==> 0xC0 <= b[0] < 0xE0 && (b[0] - 0xC0) * 0x40 + (b[1] - 0x80) == c as int)
      && (|b| == 3 ==> 0xE0 <= b[0] < 0xF0 && (b[0] - 0xE0) * 0x1000 + (b[1] - 0x80) * 0x40 + (b[2] - 0x80) == c as int)
      && (|b| == 4 ==> 0xF0 <= b[0] < 0xF8)
      && (|b| == 4 ==>
            (b[0] - 0xF0) * 0x40000 + (b[1] - 0x80) * 0x1000 + (b[2] - 0x80) * 0x40 + (b[3] - 0x80) == c as int)
  {
    var n := c as int;
    assert n / 0x40 / 0x40 == n / 0x1000 && n / 0x1000 / 0x40 == n / 0x40000;
  }

  /** The length limit counts the bytes of the encoding, and those are bytes. */
  lemma {:induction false} LengthOfEncoding(s: string)
    ensures Utf8Length(s) == |Encoded(s)| && forall i :: 0 <= i < |Encoded(s)| ==> 0 <= Encoded(s)[i] < 256
  {
    if s != [] { LengthOfEncoding(s[1..]); }
  }

  // ------------------------------------------------------------------ entry keys and upload keys

  /** The key under which the SDK's upload of a directory entry is stored. */
  function UploadKey(nfc: string -> string, prefix: string, path: string): Result<string, PathError> {
    ServerNormalize(nfc, StripSlashes(prefix + "/" + path), DEFAULT_DEPTH, DEFAULT_BYTES)
  }

  ghost predicate Slashes(s: string) { forall i :: 0 <= i < |s| ==> s[i] == '/' }

  lemma {:induction false} StripParts(s: string) returns (l: string, r: string)
    ensures Slashes(l) && Slashes(r) && s == l + StripSlashes(s) + r
    ensures var m := StripSlashes(s); m != "" ==> m[0] != '/' && m[|m| - 1] != '/'
    decreases |s|
  {
    if s != [] && s[0] == '/' {
      l, r := StripParts(s[1..]);
      l := ['/'] + l;
    } else if s != [] && s[|s| - 1] == '/' {
      l, r := StripParts(s[..|s| - 1]);
      r := r + ['/'];
    } else {
      l, r := "", "";
      assert l + s + r == s;
    }
  }

  lemma {:induction false} StripLead(l: string, m: string)
    requires Slashes(l) && m != "" && m[0] != '/' && m[|m| - 1] != '/'
    ensures StripSlashes(l + m) == m
  {
    if l == [] {
      assert l + m == m;
    } else {
      StripLead(l[1..], m);
      assert (l + m)[1..] == l[1..] + m;
    }
  }

  lemma {:induction false} SplitConcat(a: string, b: string)
    ensures Split(a + "/" + b, '/') == Split(a, '/') + Split(b, '/')
  {
    var s := a + "/" + b;
    if a == [] {
      assert s[0] == '/' && s[1..] == b;
    } else {
      SplitConcat(a[1..], b);
      assert s[0] == a[0] && s[1..] == a[1..] + "/" + b;
      FirstJoined(a[0], Split(a[1..], '/'), Split(b, '/'));
    }
  }

  /** Both ways a first character joins the segments after it, in front of more segments. */
  lemma FirstJoined(c: char, p: seq<string>, q: seq<string>)
    requires p != []
    ensures [""] + (p + q) == ([""] + p) + q
    ensures [[c] + (p + q)[0]] + (p + q)[1..] == ([[c] + p[0]] + p[1..]) + q
  {}

  lemma {:induction false} KeptConcat(a: seq<string>, b: seq<string>, unsafe: set<string>)
    ensures Kept(a, unsafe).Err? ==> Kept(a + b, unsafe).Err?
    ensures Kept(a, unsafe).Ok? && Kept(b, unsafe).Ok? ==>
      Kept(a + b, unsafe) == Ok(Kept(a, unsafe).value + Kept(b, unsafe).value)
    ensures Kept(a, unsafe).Ok? && Kept(b, unsafe).Err? ==> Kept(a + b, unsafe).Err?
  {
    if a == [] {
      assert a + b == b;
      if Kept(b, unsafe).Ok? { assert [] + Kept(b, unsafe).value == Kept(b, unsafe).value; }
    } else {
      KeptConcat(a[1..], b, unsafe);
      assert (a + b)[0] == a[0] && (a + b)[1..] == a[1..] + b;
      var x, y := Kept(a[1..], unsafe), Kept(b, unsafe);
      if x.Ok? && y.Ok? { assert [a[0]] + (x.value + y.value) == ([a[0]] + x.value) + y.value; }
    }
  }

  lemma {:induction false} JoinConcat(a: seq<string>, b: seq<string>)
    requires a != [] && b != []
    ensures Join(a + b, '/') == Join(a, '/') + "/" + Join(b, '/')
  {
    if |a| == 1 {
      assert (a + b)[1..] == b;
    } else {
      JoinConcat(a[1..], b);
      assert (a + b)[1..] == a[1..] + b;
    }
  }

  /** Slashes in front of a path stay in front under NFC, and the segment loop drops them. */
  lemma {:induction false} LeadingSlashes(nfc: string -> string, r: string, path: string)
    requires NfcLike(nfc) && nfc("") == "" && nfc(path) == path && Slashes(r)
    ensures nfc(r + path) == r + path && Kept(Split(r + path, '/'), UNSAFE) == Kept(Split(path, '/'), UNSAFE)
  {
    if r == [] {
      assert r + path == path;
    } else {
      LeadingSlashes(nfc, r[1..], path);
      var rest := r[1..] + path;
      assert r + path == "" + "/" + rest;
      assert nfc("" + "/" + rest) == nfc("") + "/" + nfc(rest);
      SplitConcat("", rest);
      assert Split("", '/') + Split(rest, '/') == [""] + Split(rest, '/');
      assert ([""] + Split(rest, '/'))[1..] == Split(rest, '/');
    }
  }

  /** A normalised path is its own segments, unchanged by NFC and by the separator replacement. */
  lemma NormalPath(nfc: string -> string, path: string) returns (parts: seq<string>)
    requires NfcLike(nfc) && ServerNormalize(nfc, path, DEFAULT_DEPTH, DEFAULT_BYTES) == Ok(path)
    ensures parts != [] && Join(parts, '/') == path && Kept(Split(path, '/'), UNSAFE) == Ok(parts)
    ensures nfc(path) == path && ToPosix(path) == path && path != "" && path[0] != '/' && path[|path| - 1] != '/'
  {
    parts := AcceptedShape(nfc, path, UNSAFE, DEFAULT_DEPTH, DEFAULT_BYTES);
    if '\\' in path { JoinChars(parts, '\\', '/'); }
    PosixIdentity(path);
    FixedUnderNfc(nfc, parts);
    SplitJoin(parts, '/');
    KeptAll(parts, UNSAFE);
    assert parts[0] in parts && parts[|parts| - 1] in parts;
    assert path[0] == parts[0][0];
    JoinEnd(parts);
  }

  lemma {:induction false} JoinEnd(parts: seq<string>)
    requires parts != [] && (forall i :: 0 <= i < |parts| ==> '/' !in parts[i]) && parts[|parts| - 1] != ""
    ensures var s := Join(parts, '/'); s != "" && s[|s| - 1] != '/'
  {
    if |parts| > 1 { JoinEnd(parts[1..]); }
  }

  /** The stripped upload key of an entry, in terms of the stripped prefix. */
  lemma RawKey(prefix: string, path: string) returns (r: string)
    requires path != "" && path[0] != '/' && path[|path| - 1] != '/'
    ensures Slashes(r)
    ensures StripSlashes(prefix + "/" + path)
      == if StripSlashes(prefix) == "" then path else StripSlashes(prefix) + "/" + (r + path)
  {
    var clean := StripSlashes(prefix);
    var l, tail := StripParts(prefix);
    r := tail;
    if clean == "" {
      var lead := l + tail + "/";
      assert prefix + "/" + path == lead + path;
      StripLead(lead, path);
    } else {
      assert tail + "/" == "/" + tail;
      var m := clean + "/" + (tail + path);
      assert prefix + "/" + path == l + m;
      StripLead(l, m);
    }
  }

  lemma {:induction false} PosixConcat(a: string, b: string)
    ensures ToPosix(a + b) == ToPosix(a) + ToPosix(b)
  {}

  /**
   * The key a directory entry is given is the key its file is uploaded to exactly when the stripped prefix
   * is its own normal form: create_job checks the prefix but stores it as it came.
   */
  lemma {:induction false} EntryKeyIsUploadKey(nfc: string -> string, prefix: string, path: string)
    requires NfcLike(nfc) && nfc("") == ""
    requires ServerNormalize(nfc, path, DEFAULT_DEPTH, DEFAULT_BYTES) == Ok(path) && UploadKey(nfc, prefix, path).Ok?
    requires StripSlashes(prefix) == "" || ServerNormalize(nfc, StripSlashes(prefix), DEFAULT_DEPTH, DEFAULT_BYTES).Ok?
    ensures JoinPrefix(nfc, StripSlashes(prefix), path) == UploadKey(nfc, prefix, path) <==>
      StripSlashes(prefix) == "" || ServerNormalize(nfc, StripSlashes(prefix), DEFAULT_DEPTH,
                                                    DEFAULT_BYTES) == Ok(StripSlashes(prefix))
  {
    var clean := StripSlashes(prefix);
    StripTwice(prefix);
    UploadKeyIs(nfc, prefix, path);
    if clean == "" {
      assert "" + path == path;
    } else {
      SameLead(ServerNormalize(nfc, clean, DEFAULT_DEPTH, DEFAULT_BYTES).value, clean, path);
    }
  }

  lemma SameLead(a: string, b: string, path: string)
    ensures a + "/" + path == b + "/" + path <==> a == b
  {
    if a + "/" + path == b + "/" + path {
      assert |a| == |b|;
      assert (a + "/" + path)[..|a|] == a && (b + "/" + path)[..|b|] == b;
    }
  }

  /** What stands before an entry's path in the key of its file: the prefix in normal form and a slash. */
  function KeyLead(nfc: string -> string, prefix: string): string {
    match ServerNormalize(nfc, StripSlashes(prefix), DEFAULT_DEPTH, DEFAULT_BYTES)
    case Ok(normal) => if StripSlashes(prefix) == "" then "" else normal + "/"
    case Err(_) => ""
  }

  /** The key of an entry's file is its path behind a lead that is the same for all entries. */
  lemma {:induction false} UploadKeyIs(nfc: string -> string, prefix: string, path: string)
    requires NfcLike(nfc) && nfc("") == ""
    requires ServerNormalize(nfc, path, DEFAULT_DEPTH, DEFAULT_BYTES) == Ok(path) && UploadKey(nfc, prefix, path).Ok?
    requires StripSlashes(prefix) == "" || ServerNormalize(nfc, StripSlashes(prefix), DEFAULT_DEPTH, DEFAULT_BYTES).Ok?
    ensures UploadKey(nfc, prefix, path) == Ok(KeyLead(nfc, prefix) + path)
  {
    var parts := NormalPath(nfc, path);
    var r := RawKey(prefix, path);
    if StripSlashes(prefix) != "" {
      KeyOfPrefix(nfc, StripSlashes(prefix), r, path, parts);
    } else {
      assert "" + path == path;
    }
  }

  lemma StripTwice(prefix: string)
    ensures StripSlashes(StripSlashes(prefix)) == StripSlashes(prefix)
  {
    var clean := StripSlashes(prefix);
    var l, r := StripParts(prefix);
    if clean != "" {
      StripLead("", clean);
      assert "" + clean == clean;
    }
  }

  lemma KeyOfPrefix(nfc: string -> string, clean: string, r: string, path: string, parts: seq<string>)
    requires NfcLike(nfc) && nfc("") == "" && Slashes(r) && nfc(path) == path && ToPosix(path) == path
    requires parts != [] && Join(parts, '/') == path && Kept(Split(path, '/'), UNSAFE) == Ok(parts)
    requires ServerNormalize(nfc, clean, DEFAULT_DEPTH, DEFAULT_BYTES).Ok?
    requires ServerNormalize(nfc, clean + "/" + (r + path), DEFAULT_DEPTH, DEFAULT_BYTES).Ok?
    ensures ServerNormalize(nfc, clean + "/" + (r + path), DEFAULT_DEPTH, DEFAULT_BYTES)
      == Ok(ServerNormalize(nfc, clean, DEFAULT_DEPTH, DEFAULT_BYTES).value + "/" + path)
  {
    var a, b := nfc(ToPosix(clean)), r + path;
    PosixSlashes(clean, r, path);
    LeadingSlashes(nfc, r, path);
    assert nfc(ToPosix(clean) + "/" + b) == a + "/" + b;
    SplitConcat(a, b);
    KeptConcat(Split(a, '/'), Split(b, '/'), UNSAFE);
    var front := Kept(Split(a, '/'), UNSAFE).value;
    assert Kept(Split(a + "/" + b, '/'), UNSAFE) == Ok(front + parts);
    JoinConcat(front, parts);
  }

  lemma PosixSlashes(clean: string, r: string, path: string)
    requires Slashes(r) && ToPosix(path) == path
    ensures ToPosix(clean + "/" + (r + path)) == ToPosix(clean) + "/" + (r + path)
  {
    PosixConcat(clean + "/", r + path);
    PosixConcat(clean, "/");
    PosixConcat(r, path);
    assert ToPosix(r) == r && ToPosix("/") == "/";
  }

  // ------------------------------------------------------------------ a prefix that is not in normal form

  /** Letters and slashes, beginning with a letter. */
  ghost predicate Plain(raw: string) {
    && (forall i :: 0 <= i < |raw| ==> raw[i] == '/' || 'a' <= raw[i] <= 'z') && raw != [] && raw[0] != '/'
  }

  lemma {:induction false} PlainPosix(raw: string)
    requires forall i :: 0 <= i < |raw| ==> raw[i] != '\\'
    ensures ToPosix(raw) == raw
  {}

  lemma {:induction false} PlainNormal(nfc: string -> string, raw: string, kept: seq<string>, normal: string)
    requires Plain(raw) && nfc(raw) == raw && Kept(Split(raw, '/'), UNSAFE) == Ok(kept) && Join(kept, '/') == normal
    requires normal != "" && |kept| <= DEFAULT_DEPTH && 4 * |normal| <= DEFAULT_BYTES
    ensures ServerNormalize(nfc, raw, DEFAULT_DEPTH, DEFAULT_BYTES) == Ok(normal)
  {
    PlainPosix(raw);
    assert !HasControl(raw) && '\0' !in raw;
    assert !("/" <= raw);
    Utf8AtMost(normal);
  }

  lemma {:induction false} Utf8AtMost(s: string)
    ensures Utf8Length(s) <= 4 * |s|
  {
    if s != [] { Utf8AtMost(s[1..]); }
  }

  /** A doubled slash loses its empty segment. */
  lemma {:induction false} LooseKept(a: string, b: string, rest: seq<string>)
    requires '/' !in a && a !in UNSAFE && a != "" && a != "." && a != ".."
    requires Split(b, '/') == rest && Kept(rest, UNSAFE) == Ok(rest)
    ensures Kept(Split(a + ['/'] + (['/'] + b), '/'), UNSAFE) == Ok([a] + rest)
  {
    SplitUnit(a, ['/'] + b, '/');
    SplitUnit([], b, '/');
    assert [] + ['/'] + b == ['/'] + b;
    assert ([a] + ([""] + rest))[1..] == [""] + rest && ([""] + rest)[1..] == rest;
  }

  lemma {:induction false} OneKept(a: string, rest: seq<string>)
    requires a !in UNSAFE && a != "" && a != "." && a != ".." && Kept(rest, UNSAFE) == Ok(rest)
    ensures Kept([a] + rest, UNSAFE) == Ok([a] + rest)
  {
    assert ([a] + rest)[1..] == rest;
  }

  /** "a//b" is accepted as a prefix; the entry "c" under it and its file then have different keys. */
  lemma LoosePrefixOccurs(nfc: string -> string)
    requires nfc("c") == "c" && nfc("a//b") == "a//b" && nfc("a//b/c") == "a//b/c"
    ensures ServerNormalize(nfc, "a//b", DEFAULT_DEPTH, DEFAULT_BYTES) == Ok("a/b")
    ensures JoinPrefix(nfc, StripSlashes("a//b"), "c") == Ok("a//b/c")
    ensures UploadKey(nfc, "a//b", "c") == Ok("a/b/c")
  {
    LooseName(nfc, "c");
    LoosePrefix(nfc, "a", "b", "a//b", "a/b");
    LooseKey(nfc, "a", "b", "c", "a//b/c", "a/b/c");
    assert "a//b" + "/" + "c" == "a//b/c";
    Tight("a//b");
    Tight("a//b/c");
  }

  lemma {:induction false} Tight(s: string)
    requires s != [] && s[0] != '/' && s[|s| - 1] != '/'
    ensures StripSlashes(s) == s
  {}

  predicate Letter(s: string) { |s| == 1 && 'a' <= s[0] <= 'z' }

  lemma {:induction false} LetterKept(a: string)
    requires Letter(a)
    ensures Split(a, '/') == [a] && Kept([a], UNSAFE) == Ok([a])
  {
    SplitWhole(a, '/');
    OneKept(a, []);
    assert [a] + [] == [a];
  }

  lemma {:induction false} LooseName(nfc: string -> string, c: string)
    requires Letter(c) && nfc(c) == c
    ensures ServerNormalize(nfc, c, DEFAULT_DEPTH, DEFAULT_BYTES) == Ok(c)
  {
    LetterKept(c);
    PlainNormal(nfc, c, [c], c);
  }

  lemma {:induction false} LoosePrefix(nfc: string -> string, a: string, b: string, raw: string, normal: string)
    requires Letter(a) && Letter(b) && raw == a + ['/'] + (['/'] + b) && normal == a + ['/'] + b && nfc(raw) == raw
    ensures ServerNormalize(nfc, raw, DEFAULT_DEPTH, DEFAULT_BYTES) == Ok(normal)
  {
    LetterKept(b);
    LooseKept(a, b, [b]);
    TwoJoined(a, b);
    PlainNormal(nfc, raw, [a] + [b], normal);
  }

  lemma {:induction false} LooseKey(nfc: string -> string, a: string, b: string, c: string, raw: string, normal: string)
    requires Letter(a) && Letter(b) && Letter(c) && nfc(raw) == raw
    requires raw == a + ['/'] + (['/'] + (b + ['/'] + c)) && normal == a + ['/'] + (b + ['/'] + c)
    ensures ServerNormalize(nfc, raw, DEFAULT_DEPTH, DEFAULT_BYTES) == Ok(normal)
  {
    LetterKept(c);
    OneKept(b, [c]);
    SplitUnit(b, c, '/');
    LooseKept(a, b + ['/'] + c, [b] + [c]);
    TwoJoined(b, c);
    MoreJoined(a, [b] + [c]);
    PlainNormal(nfc, raw, [a] + ([b] + [c]), normal);
  }

  lemma {:induction false} TwoJoined(a: string, b: string)
    ensures Join([a] + [b], '/') == a + ['/'] + b
  {
    MoreJoined(a, [b]);
  }

  lemma {:induction false} MoreJoined(a: string, rest: seq<string>)
    requires rest != []
    ensures Join([a] + rest, '/') == a + ['/'] + Join(rest, '/')
  {
    assert ([a] + rest)[1..] == rest;
  }
}
