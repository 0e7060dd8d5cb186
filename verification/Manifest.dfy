/**
 * Directory manifests: the canonical text whose SHA-256 is the manifest hash, and the NDJSON form.
 * SHA-256 of the UTF-8 encoding is a parameter `sha` on strings.
 */
module Manifest {
  import opened Basics
  import opened Sorting
  import opened Text
  import Decimal
  import opened Json

  const TYPE: string := "entry_type"
  const PATH: string := "relative_path"
  const SIZE: string := "size_bytes"
  const FINGERPRINT: string := "fingerprint"
  const MODIFIED: string := "last_modified_ns"

  // ------------------------------------------------------------------ the hashed text

  /** What the hash covers of one file entry. */
  datatype Hashed = Hashed(path: string, size: int, fingerprint: Option<string>)

  function HashMembers(e: Hashed): Members {
    [(FINGERPRINT, if e.fingerprint.None? then Null else Json.Text(e.fingerprint.value)),
     (PATH, Json.Text(e.path)),
     (SIZE, Number(e.size))]
  }

  /** One line of the hashed text: the entry as JSON with its keys in alphabetical order. */
  function HashLine(e: Hashed): string { PrintObject(HashMembers(e)) }

  function HashLines(es: seq<Hashed>): seq<string> { seq(|es|, i requires 0 <= i < |es| => HashLine(es[i])) }

  function ByPath(): (Hashed, Hashed) -> bool { (x: Hashed, y: Hashed) => LexLess(x.path, y.path) }

  /** The hashed text: the entries' lines in path order. */
  function HashInput(es: seq<Hashed>): string { Join(HashLines(SortBy(ByPath(), es)), '\n') }

  /** `manifest_hash_from_entries`, the same code on the server and in the SDK. */
  method ManifestHash(sha: string -> string, entries: seq<Hashed>) returns (hash: string)
    ensures hash == sha(HashInput(entries))
  {
    var lines: seq<string> := [];
    var ordered := SortBy(ByPath(), entries);
    for i := 0 to |ordered|
      invariant lines == HashLines(ordered)[..i]
    {
      lines := lines + [HashLine(ordered[i])];
    }
    assert lines == HashLines(ordered);
    hash := sha(Join(lines, '\n'));
  }

  // ------------------------------------------------------------------ NDJSON

  type Entry = map<string, Value>

  function Get(e: Entry, key: string, default: Value): Value { if key in e then e[key] else default }

  function Optional(e: Entry, key: string): Members {
    if Get(e, key, Null) == Null then [] else [(key, e[key])]
  }

  function Payload(e: Entry): Members {
    [(TYPE, Get(e, TYPE, Json.Text("file"))), (PATH, Get(e, PATH, Null)), (SIZE, Get(e, SIZE, Number(0)))]
    + (Optional(e, FINGERPRINT) + Optional(e, MODIFIED))
  }

  function Line(e: Entry): string { PrintObject(Payload(e)) }

  function Lines(es: seq<Entry>): seq<string> { seq(|es|, i requires 0 <= i < |es| => Line(es[i])) }

  /** Lines joined by line feeds, with one more at the end unless there are none. */
  function Terminate(lines: seq<string>): string { Join(lines, '\n') + if lines != [] then ['\n'] else [] }

  function Serialize(es: seq<Entry>): string { Terminate(Lines(es)) }

  method SerializeManifest(entries: seq<Entry>) returns (text: string)
    ensures text == Serialize(entries)
  {
    var lines: seq<string> := [];
    for i := 0 to |entries|
      invariant lines == Lines(entries)[..i]
    {
      var payload := [(TYPE, Get(entries[i], TYPE, Json.Text("file"))),
                      (PATH, Get(entries[i], PATH, Null)),
                      (SIZE, Get(entries[i], SIZE, Number(0)))];
      var optional: Members := [];
      if Get(entries[i], FINGERPRINT, Null) != Null {
        optional := optional + [(FINGERPRINT, entries[i][FINGERPRINT])];
      }
      if Get(entries[i], MODIFIED, Null) != Null {
        optional := optional + [(MODIFIED, entries[i][MODIFIED])];
      }
      assert payload + optional == Payload(entries[i]);
      lines := lines + [PrintObject(payload + optional)];
    }
    assert lines == Lines(entries);
    text := Terminate(lines);
  }

  function ParseLines(lines: seq<string>): Option<seq<Document>> {
    if lines == [] then Some([])
    else if Decimal.Strip(lines[0]) == [] then ParseLines(lines[1..])
    else match (Loads(Decimal.Strip(lines[0])), ParseLines(lines[1..]))
      case (Some(d), Some(ds)) => Some([d] + ds)
      case _ => None
  }

  /** `parse_manifest_ndjson`; None where a line is not JSON. */
  function ParseNdjson(payload: string): Option<seq<Document>> { ParseLines(SplitLines(payload)) }

  method ParseManifest(payload: string) returns (r: Option<seq<Document>>)
    ensures r == ParseNdjson(payload)
  {
    var entries: seq<Document> := [];
    var lines := SplitLines(payload);
    assert lines[0..] == lines;
    assert After([], ParseLines(lines)) == ParseLines(lines) by { AfterNone(ParseLines(lines)); }
    for i := 0 to |lines|
      invariant ParseNdjson(payload) == After(entries, ParseLines(lines[i..]))
    {
      var line := Decimal.Strip(lines[i]);
      assert lines[i..][1..] == lines[i + 1..];
      if line == [] {
        continue;
      }
      var document := Loads(line);
      if document.None? {
        return None;
      }
      AfterOne(entries, document.value, ParseLines(lines[i + 1..]));
      entries := entries + [document.value];
    }
    assert entries + [] == entries;
    return Some(entries);
  }

  ghost function After(done: seq<Document>, r: Option<seq<Document>>): Option<seq<Document>> {
    match r case None => None case Some(rest) => Some(done + rest)
  }

  lemma AfterNone(r: Option<seq<Document>>)
    ensures After([], r) == r
  {
    if r.Some? { assert [] + r.value == r.value; }
  }

  lemma AfterOne(done: seq<Document>, d: Document, r: Option<seq<Document>>)
    ensures After(done + [d], r) == After(done, After([d], r))
  {
    if r.Some? { assert done + [d] + r.value == done + ([d] + r.value); }
  }

  // ------------------------------------------------------------------ the hashed text is faithful

  lemma KeysDiffer()
    ensures TYPE != PATH && TYPE != SIZE && TYPE != FINGERPRINT && TYPE != MODIFIED && PATH != SIZE
    ensures PATH != FINGERPRINT && PATH != MODIFIED
    ensures SIZE != FINGERPRINT && SIZE != MODIFIED && FINGERPRINT != MODIFIED
  {
    assert TYPE[0] == 'e' && PATH[0] == 'r' && SIZE[0] == 's' && FINGERPRINT[0] == 'f' && MODIFIED[0] == 'l';
  }

  lemma {:induction false} HashLineInjective(e: Hashed, f: Hashed)
    requires HashLine(e) == HashLine(f)
    ensures e == f
  {
    HashLineReads(e);
    HashLineReads(f);
    HashFields(e);
    HashFields(f);
    MembersTell(e, f);
  }

  lemma HashFields(e: Hashed)
    ensures FINGERPRINT in HashDictionary(e) && HashDictionary(e)[FINGERPRINT] == HashMembers(e)[0].1
    ensures PATH in HashDictionary(e) && HashDictionary(e)[PATH] == HashMembers(e)[1].1
    ensures SIZE in HashDictionary(e) && HashDictionary(e)[SIZE] == HashMembers(e)[2].1
  {
    KeysDiffer();
  }

  lemma MembersTell(e: Hashed, f: Hashed)
    requires HashMembers(e)[0].1 == HashMembers(f)[0].1 && HashMembers(e)[1].1 == HashMembers(f)[1].1
    requires HashMembers(e)[2].1 == HashMembers(f)[2].1
    ensures e == f
  {}

  function HashDictionary(e: Hashed): map<string, Value> {
    map[FINGERPRINT := HashMembers(e)[0].1][PATH := HashMembers(e)[1].1][SIZE := HashMembers(e)[2].1]
  }

  lemma HashLineReads(e: Hashed)
    ensures Loads(HashLine(e)) == Some(Object(HashDictionary(e)))
  {
    var ms := HashMembers(e);
    ObjectRoundTrip(ms);
    var seen := map[ms[0].0 := ms[0].1];
    Dictionary3(ms, map[]);
  }

  lemma Dictionary3(ms: Members, seen: map<string, Value>)
    requires |ms| >= 3
    ensures Dictionary(ms, seen)
      == Dictionary(ms[3..], seen[ms[0].0 := ms[0].1][ms[1].0 := ms[1].1][ms[2].0 := ms[2].1])
  {
    assert ms[1..][1..] == ms[2..] && ms[2..][1..] == ms[3..];
    var one := seen[ms[0].0 := ms[0].1];
    assert Dictionary(ms[1..], one) == Dictionary(ms[2..], one[ms[1].0 := ms[1].1]);
  }

  /** A printed object is one line, whatever it holds, as far as line feeds go. */
  lemma NoLineFeed(ms: Members)
    ensures '\n' !in PrintObject(ms)
  {
    if '\n' in PrintMembers(ms) { MembersChars(ms, '\n'); }
  }

  lemma {:induction false} SameLines(a: seq<Hashed>, b: seq<Hashed>)
    requires HashLines(a) == HashLines(b)
    ensures a == b
  {
    assert |HashLines(a)| == |a| && |HashLines(b)| == |b|;
    forall i | 0 <= i < |a| ensures a[i] == b[i] {
      assert HashLines(a)[i] == HashLine(a[i]) && HashLines(b)[i] == HashLine(b[i]);
      HashLineInjective(a[i], b[i]);
    }
  }

  /** The lines can be told apart again in the hashed text. */
  lemma TextDeterminesOrder(a: seq<Hashed>, b: seq<Hashed>)
    requires Join(HashLines(a), '\n') == Join(HashLines(b), '\n')
    ensures a == b
  {
    forall es: seq<Hashed>, i | 0 <= i < |es| ensures '\n' !in HashLines(es)[i] && HashLines(es)[i] != [] {
      NoLineFeed(HashMembers(es[i]));
    }
    if a != [] && b != [] {
      SplitJoin(HashLines(a), '\n');
      SplitJoin(HashLines(b), '\n');
      SameLines(a, b);
    } else {
      JoinOfOne(HashLines(a));
      JoinOfOne(HashLines(b));
    }
  }

  lemma JoinOfOne(lines: seq<string>)
    requires forall i :: 0 <= i < |lines| ==> lines[i] != []
    ensures Join(lines, '\n') == [] <==> lines == []
  {
    if lines != [] { assert lines[0] != []; }
  }

  ghost predicate DistinctPaths(es: seq<Hashed>) {
    forall i, j :: 0 <= i < j < |es| ==> es[i].path != es[j].path
  }

  /**
   * For entries with distinct paths the hashed text is canonical and faithful: two lists have the same
   * text exactly when they hold the same entries, in whatever order.
   */
  lemma HashInputFaithful(a: seq<Hashed>, b: seq<Hashed>)
    requires DistinctPaths(a)
    ensures HashInput(a) == HashInput(b) <==> multiset(a) == multiset(b)
  {
    if HashInput(a) == HashInput(b) {
      TextDeterminesOrder(SortBy(ByPath(), a), SortBy(ByPath(), b));
    }
    if multiset(a) == multiset(b) {
      HashInputCanonical(a, b);
    }
  }

  lemma HashInputCanonical(a: seq<Hashed>, b: seq<Hashed>)
    requires DistinctPaths(a) && multiset(a) == multiset(b)
    ensures HashInput(a) == HashInput(b)
  {
    var s := Elements(a);
    forall x, y | x in s && y in s && x != y ensures x.path != y.path {
      var i :| 0 <= i < |a| && a[i] == x;
      var j :| 0 <= j < |a| && a[j] == y;
    }
    PathOrder(s);
    assert Distinct(a);
    SortByCanonical(ByPath(), a, b);
  }

  /** The hashed text is the lines of the entries in ascending path order, whatever order they come in. */
  lemma HashedInPathOrder(es: seq<Hashed>, s: seq<Hashed>)
    requires DistinctPaths(es) && multiset(s) == multiset(es)
    requires forall i, j :: 0 <= i < j < |s| ==> LexLess(s[i].path, s[j].path)
    ensures HashInput(es) == Join(HashLines(s), '\n')
  {
    var sorted := SortBy(ByPath(), es);
    var all := Elements(es);
    forall x, y | x in all && y in all && x != y ensures x.path != y.path {
      var i :| 0 <= i < |es| && es[i] == x;
      var j :| 0 <= j < |es| && es[j] == y;
    }
    PathOrder(all);
    assert Distinct(es);
    SortByAscending(ByPath(), es);
    SameElements(sorted, es);
    SameElements(s, es);
    assert Elements(sorted) == all;
    AscendingUnique(ByPath(), sorted, s);
  }

  /** A key as it is printed. */
  lemma {:induction false} KeyPrinted(key: string)
    requires forall i :: 0 <= i < |key| ==> 'a' <= key[i] <= 'z' || key[i] == '_'
    ensures Quote(key) == ['"'] + (key + ['"'])
  {
    EscapePlain(key);
  }

  lemma {:induction false} EscapePlain(s: string)
    requires forall i :: 0 <= i < |s| ==> s[i] >= ' ' && s[i] != '"' && s[i] != '\\'
    ensures Escape(s) == s
  {
    if s != [] {
      EscapeUnfold(s);
      EscapePlain(s[1..]);
      assert EscapeChar(s[0]) == [s[0]] && [s[0]] + s[1..] == s;
    } else {
      assert Escape([]) == [];
    }
  }

  /** A key in quotes, a colon, a blank and the value. */
  function Pair(key: string, value: string): string { (['"'] + (key + ['"'])) + ([':', ' '] + value) }

  /** One line of the hashed text: the keys in alphabetical order, ", " between the members. */
  lemma HashLineText(e: Hashed)
    ensures var fingerprint := Pair("fingerprint", if e.fingerprint.None? then "null" else Quote(e.fingerprint.value));
      var (path, size) := (Pair("relative_path", Quote(e.path)), Pair("size_bytes", PrintValue(Number(e.size))));
      HashLine(e) == ['{'] + ((fingerprint + ([',', ' '] + (path + ([',', ' '] + size)))) + ['}'])
  {
    var ms := HashMembers(e);
    KeyPrinted(FINGERPRINT);
    KeyPrinted(PATH);
    KeyPrinted(SIZE);
    ThreeMembers(ms);
  }

  lemma {:induction false} ThreeMembers(ms: Members)
    requires |ms| == 3
    ensures PrintMembers(ms)
      == PrintMember(ms[0]) + ([',', ' '] + (PrintMember(ms[1]) + ([',', ' '] + PrintMember(ms[2]))))
  {
    var last, later := [ms[2]], ms[1..];
    assert later[1..] == last && |later| == 2 && later[0] == ms[1];
    assert PrintMembers(last) == PrintMember(ms[2]);
    assert PrintMembers(later) == PrintMember(later[0]) + ([',', ' '] + PrintMembers(later[1..]));
  }

  lemma PathOrder(s: set<Hashed>)
    requires forall x, y :: x in s && y in s && x != y ==> x.path != y.path
    ensures StrictOn(ByPath(), s) && TotalOn(ByPath(), s)
  {
    var less := ByPath();
    forall x, y | x in s && y in s && less(x, y) ensures !less(y, x) {
      LexAsymmetric(x.path, y.path);
    }
    forall x, y, z | x in s && y in s && z in s && less(x, y) && less(y, z) ensures less(x, z) {
      LexTransitive(x.path, y.path, z.path);
    }
    forall x, y | x in s && y in s && x != y ensures less(x, y) || less(y, x) {
      LexTotal(x.path, y.path);
    }
  }

  /** Without distinct paths the order of the rows shows in the hash: two entries of one path. */
  lemma RepeatedPathShowsOrder()
    ensures exists a, b :: multiset(a) == multiset(b) && HashInput(a) != HashInput(b)
  {
    var x, y := Hashed("p", 0, None), Hashed("p", 1, None);
    var a, b := [x, y], [y, x];
    assert multiset(a) == multiset(b);
    Decimal.LexIrreflexive("p");
    assert SortBy(ByPath(), a) == a by { PairKept(x, y); }
    assert SortBy(ByPath(), b) == b by { PairKept(y, x); }
    assert a[0] == x && b[0] == y && x.size != y.size;
    if HashInput(a) == HashInput(b) {
      TextDeterminesOrder(a, b);
    }
  }

  lemma PairKept(x: Hashed, y: Hashed)
    requires !LexLess(y.path, x.path)
    ensures SortBy(ByPath(), [x, y]) == [x, y]
  {
    assert [x, y][1..] == [y] && [y][1..] == [];
    assert Insert(ByPath(), y, []) == [y];
  }

  // ------------------------------------------------------------------ NDJSON round trip

  /** What reading an entry back gives: defaults filled in, absent or null optional fields dropped. */
  function Filled(e: Entry): Entry { Marked(e, MODIFIED, Marked(e, FINGERPRINT, Required(e))) }

  function Required(e: Entry): Entry {
    map[][TYPE := Get(e, TYPE, Json.Text("file"))][PATH := Get(e, PATH, Null)][SIZE := Get(e, SIZE, Number(0))]
  }

  function Marked(e: Entry, key: string, into: Entry): Entry {
    if Get(e, key, Null) == Null then into else into[key := e[key]]
  }

  lemma LineReads(e: Entry)
    ensures Loads(Line(e)) == Some(Object(Filled(e)))
  {
    var ms := Payload(e);
    ObjectRoundTrip(ms);
    Dictionary3(ms, map[]);
    var required := Required(e);
    var optional := Optional(e, FINGERPRINT) + Optional(e, MODIFIED);
    assert ms[3..] == optional;
    DictionaryOptional(e, FINGERPRINT, Optional(e, MODIFIED), required);
    var marked := Marked(e, FINGERPRINT, required);
    assert Optional(e, MODIFIED) + [] == Optional(e, MODIFIED);
    DictionaryOptional(e, MODIFIED, [], marked);
  }

  lemma DictionaryOptional(e: Entry, key: string, rest: Members, seen: Entry)
    ensures Dictionary(Optional(e, key) + rest, seen) == Dictionary(rest, Marked(e, key, seen))
  {
    if Get(e, key, Null) == Null {
      assert [] + rest == rest;
    } else {
      assert ([(key, e[key])] + rest)[1..] == rest;
    }
  }

  /** A line break that JSON leaves as it is inside a string literal. */
  predicate RawBreak(c: char) { c == '\U{85}' || c == '\U{2028}' || c == '\U{2029}' }

  predicate Unbroken(v: Value) { v.Text? ==> forall i :: 0 <= i < |v.s| ==> !RawBreak(v.s[i]) }

  /** None of the entry's printed values holds a next-line, line-separator or paragraph-separator character. */
  ghost predicate OneLine(e: Entry) { forall k :: k in Filled(e) ==> Unbroken(Filled(e)[k]) }

  ghost predicate UnbrokenMembers(ms: Members) { forall i :: 0 <= i < |ms| ==> Unbroken(ms[i].1) }

  ghost predicate PlainKeys(ms: Members) { forall i, c :: 0 <= i < |ms| && c in ms[i].0 ==> Plain(c) }

  lemma PayloadKeys(e: Entry)
    ensures PlainKeys(Payload(e))
  {
    assert forall k, c :: k in {TYPE, PATH, SIZE, FINGERPRINT, MODIFIED} && c in k ==> Plain(c);
    forall i | 0 <= i < |Payload(e)| ensures Payload(e)[i].0 in {TYPE, PATH, SIZE, FINGERPRINT, MODIFIED} {}
  }

  lemma OneLineMembers(e: Entry)
    ensures OneLine(e) <==> UnbrokenMembers(Payload(e))
  {
    KeysDiffer();
    var ms := Payload(e);
    var f := Filled(e);
    assert forall i :: 0 <= i < |ms| ==> ms[i].0 in f && f[ms[i].0] == ms[i].1;
    assert ms[0].0 == TYPE && ms[1].0 == PATH && ms[2].0 == SIZE;
    assert FINGERPRINT in f ==> ms[3] == (FINGERPRINT, f[FINGERPRINT]);
    assert MODIFIED in f ==> ms[|ms| - 1] == (MODIFIED, f[MODIFIED]);
  }

  lemma UnbrokenText(ms: Members)
    requires UnbrokenMembers(ms) && PlainKeys(ms)
    ensures NoBreak(PrintMembers(ms))
  {
    var s := PrintMembers(ms);
    forall i | 0 <= i < |s| ensures !IsBreak(s[i]) {
      var c := s[i];
      MembersChars(ms, c);
    }
  }

  /** Printing up to the text `t` of one value, then the rest of that text, then whatever follows. */
  lemma {:induction false} CutPrefix(ms: Members, i: nat, a: string, b: string) returns (tail: string)
    requires i < |ms| && ms[i].1 == Json.Text(a + b)
    ensures PrintMembers(ms) == CutMembers(ms[..i], ms[i].0, a) + (Escape(b) + tail)
  {
    if i == 0 {
      var more := if |ms| == 1 then [] else [',', ' '] + PrintMembers(ms[1..]);
      tail := ['"'] + more;
      assert PrintMembers(ms) == PrintMember(ms[0]) + more;
      CutMember(ms[0], a, b, more);
    } else {
      assert ms[1..][i - 1] == ms[i] && ms[1..][..i - 1] == ms[..i][1..];
      tail := CutPrefix(ms[1..], i - 1, a, b);
      var head, cut := PrintMember(ms[0]), CutMembers(ms[..i][1..], ms[i].0, a);
      AfterCut(head, cut, Escape(b) + tail);
    }
  }

  lemma AfterCut(head: string, cut: string, tail: string)
    ensures head + ([',', ' '] + (cut + tail)) == (head + ([',', ' '] + cut)) + tail
  {}

  lemma CutMember(m: (string, Value), a: string, b: string, more: string)
    requires m.1 == Json.Text(a + b)
    ensures PrintMember(m) + more == CutMembers([], m.0, a) + (Escape(b) + (['"'] + more))
  {
    EscapeConcat(a, b);
    QuoteCut(Quote(m.0), Escape(a), Escape(b), more);
  }

  lemma QuoteCut(key: string, a: string, b: string, more: string)
    ensures (key + ([':', ' '] + (['"'] + ((a + b) + ['"'])))) + more
         == (key + ([':', ' '] + (['"'] + a))) + (b + (['"'] + more))
  {}

  // ------------------------------------------------------------------ stripping a cut line

  lemma {:induction false} CutTail(done: Members, key: string, t: string)
    ensures CutMembers(done, key, t) == CutMembers(done, key, []) + Escape(t)
    ensures EndsWithQuote(CutMembers(done, key, []))
    decreases |done|
  {
    if done == [] {
      CutTailHere(Quote(key), Escape(t));
      assert Escape([]) == [];
    } else {
      CutTail(done[1..], key, t);
      AfterCut(PrintMember(done[0]), CutMembers(done[1..], key, []), Escape(t));
      QuoteStays(PrintMember(done[0]) + [',', ' '], CutMembers(done[1..], key, []));
      Assoc(PrintMember(done[0]), [',', ' '], CutMembers(done[1..], key, []));
    }
  }

  predicate EndsWithQuote(s: string) { s != [] && s[|s| - 1] == '"' }

  lemma QuoteStays(a: string, b: string)
    requires EndsWithQuote(b)
    ensures EndsWithQuote(a + b)
  {}

  lemma CutTailHere(key: string, t: string)
    ensures key + ([':', ' '] + (['"'] + t)) == (key + ([':', ' '] + (['"'] + []))) + t
    ensures EndsWithQuote(key + ([':', ' '] + (['"'] + [])))
  {}

  /** Stripping blanks from the end of a cut literal only moves the cut. */
  lemma {:induction false} StripCut(x: string, t: string) returns (t': string)
    requires x != [] && x[|x| - 1] == '"'
    ensures Decimal.StripRight(x + Escape(t)) == x + Escape(t')
    decreases |t|
  {
    var s := x + Escape(t);
    if t == [] {
      t' := [];
      assert s == x;
    } else {
      var n, c := |t| - 1, t[|t| - 1];
      EscapePush(t[..n], c);
      assert t == t[..n] + [c];
      Assoc(x, Escape(t[..n]), EscapeChar(c));
      LastEscaped(c);
      var e := EscapeChar(c);
      assert s[|s| - 1] == e[|e| - 1];
      if e == [c] && Decimal.IsSpace(c) {
        assert s[..|s| - 1] == x + Escape(t[..n]);
        t' := StripCut(x, t[..n]);
      } else {
        t' := t;
      }
    }
  }

  lemma LastEscaped(c: char)
    ensures var e := EscapeChar(c); e != [] && (e != [c] ==> !Decimal.IsSpace(e[|e| - 1]))
  {}

  lemma CutLineRefused(done: Members, key: string, t: string)
    ensures var line := Decimal.Strip(['{'] + CutMembers(done, key, t)); line != [] && Loads(line).None?
  {
    CutTail(done, key, t);
    var x := ['{'] + CutMembers(done, key, []);
    Assoc(['{'], CutMembers(done, key, []), Escape(t));
    var t' := StripCut(x, t);
    CutTail(done, key, t');
    Assoc(['{'], CutMembers(done, key, []), Escape(t'));
    assert (x + Escape(t))[0] == '{';
    ObjectCut(done, key, t');
  }

  // ------------------------------------------------------------------ whole manifests

  lemma TerminateUnfold(lines: seq<string>)
    requires lines != []
    ensures Terminate(lines) == lines[0] + (['\n'] + Terminate(lines[1..]))
  {
    if |lines| > 1 {
      var rest := Join(lines[1..], '\n');
      assert lines[0] + ['\n'] + rest + ['\n'] == lines[0] + (['\n'] + (rest + ['\n']));
    }
  }

  lemma SerializeUnfold(es: seq<Entry>)
    requires es != []
    ensures Serialize(es) == Line(es[0]) + (['\n'] + Serialize(es[1..]))
  {
    var lines := Lines(es);
    TerminateUnfold(lines);
    assert lines[1..] == Lines(es[1..]) by { LinesTail(es); }
  }

  lemma LinesTail(es: seq<Entry>)
    requires es != []
    ensures Lines(es)[1..] == Lines(es[1..])
  {
    forall i | 0 <= i < |es| - 1 ensures Lines(es)[1..][i] == Lines(es[1..])[i] {
      assert es[i + 1] == es[1..][i];
    }
  }

  lemma {:induction false} WholeLine(e: Entry, rest: string)
    requires OneLine(e)
    ensures ParseNdjson(Line(e) + (['\n'] + rest)) == After([Object(Filled(e))], ParseNdjson(rest))
  {
    var line := Line(e);
    OneLineMembers(e);
    PayloadKeys(e);
    UnbrokenText(Payload(e));
    FirstLine(line, '\n', rest);
    assert line[0] == '{' && line[|line| - 1] == '}';
    Decimal.StripTight(line);
    LineReads(e);
    assert ([line] + SplitLines(rest))[1..] == SplitLines(rest);
  }

  lemma BrokenLine(e: Entry, rest: string)
    requires !OneLine(e)
    ensures ParseNdjson(Line(e) + (['\n'] + rest)).None?
  {
    OneLineMembers(e);
    PayloadKeys(e);
    BrokenMembers(Payload(e), ['\n'] + rest);
  }

  lemma BrokenMembers(ms: Members, rest: string)
    requires PlainKeys(ms) && !UnbrokenMembers(ms)
    ensures ParseNdjson(PrintObject(ms) + rest).None?
  {
    var i := FirstBroken(ms, 0);
    var t := ms[i].1.s;
    var j := BreakIn(t);
    assert t[..j] + t[j..] == t;
    var tail := CutPrefix(ms, i, t[..j], t[j..]);
    var cut := ['{'] + CutMembers(ms[..i], ms[i].0, t[..j]);
    var after := (Escape(t[j + 1..]) + tail) + (['}'] + rest);
    BrokenLineAt(ms, i, j, tail, rest);
    CutHasNoBreak(ms[..i], ms[i].0, t[..j]);
    FirstLine(cut, t[j], after);
    CutLineRefused(ms[..i], ms[i].0, t[..j]);
    ParseCut(cut, SplitLines(after));
  }

  lemma ParseCut(first: string, rest: seq<string>)
    requires var line := Decimal.Strip(first); line != [] && Loads(line).None?
    ensures ParseLines([first] + rest).None?
  {
    assert ([first] + rest)[1..] == rest;
  }

  lemma BrokenLineAt(ms: Members, i: nat, j: nat, tail: string, rest: string)
    requires i < |ms| && ms[i].1.Text? && j < |ms[i].1.s| && RawBreak(ms[i].1.s[j])
    requires PrintMembers(ms) == CutMembers(ms[..i], ms[i].0, ms[i].1.s[..j]) + (Escape(ms[i].1.s[j..]) + tail)
    ensures var t := ms[i].1.s;
      PrintObject(ms) + rest ==
      (['{'] + CutMembers(ms[..i], ms[i].0, t[..j])) + ([t[j]] + ((Escape(t[j + 1..]) + tail) + (['}'] + rest)))
  {
    var t := ms[i].1.s;
    BreakIsRaw(t, j);
    Regroup(CutMembers(ms[..i], ms[i].0, t[..j]), [t[j]], Escape(t[j + 1..]), tail, rest);
  }

  lemma BreakIsRaw(t: string, j: nat)
    requires j < |t| && RawBreak(t[j])
    ensures Escape(t[j..]) == [t[j]] + Escape(t[j + 1..])
  {
    assert t[j..][0] == t[j] && t[j..][1..] == t[j + 1..];
    EscapeUnfold(t[j..]);
    assert EscapeChar(t[j]) == [t[j]];
  }

  lemma Regroup(cut: string, c: string, more: string, tail: string, rest: string)
    ensures (['{'] + ((cut + ((c + more) + tail)) + ['}'])) + rest
      == (['{'] + cut) + (c + ((more + tail) + (['}'] + rest)))
  {}

  lemma {:induction false} FirstBroken(ms: Members, from: nat) returns (i: nat)
    requires from <= |ms| && !UnbrokenMembers(ms) && UnbrokenMembers(ms[..from])
    ensures i < |ms| && !Unbroken(ms[i].1) && UnbrokenMembers(ms[..i])
    decreases |ms| - from
  {
    assert from < |ms|;
    if !Unbroken(ms[from].1) {
      i := from;
    } else {
      assert ms[..from + 1] == ms[..from] + [ms[from]];
      i := FirstBroken(ms, from + 1);
    }
  }

  lemma {:induction false} BreakIn(t: string) returns (j: nat)
    requires !Unbroken(Json.Text(t))
    ensures j < |t| && RawBreak(t[j]) && Unbroken(Json.Text(t[..j]))
  {
    if RawBreak(t[0]) {
      j := 0;
    } else {
      var k := BreakIn(t[1..]);
      j := k + 1;
      assert forall m :: 1 <= m < j ==> t[m] == t[1..][..k][m - 1];
    }
  }

  lemma {:induction false} CutHasNoBreak(done: Members, key: string, t: string)
    requires UnbrokenMembers(done) && PlainKeys(done) && (forall c :: c in key ==> Plain(c)) && Unbroken(Json.Text(t))
    ensures NoBreak(['{'] + CutMembers(done, key, t))
    decreases |done|
  {
    if done == [] {
      assert forall i :: 0 <= i < |key| ==> key[i] in key;
      EscapeNoBreak(key);
      EscapeNoBreak(t);
    } else {
      CutHasNoBreak(done[1..], key, t);
      var cut := CutMembers(done[1..], key, t);
      assert NoBreak(cut) by { assert forall i :: 0 <= i < |cut| ==> cut[i] == (['{'] + cut)[i + 1]; }
      UnbrokenText([done[0]]);
      assert PrintMembers([done[0]]) == PrintMember(done[0]);
    }
  }

  lemma EscapeNoBreak(t: string)
    requires Unbroken(Json.Text(t))
    ensures NoBreak(Escape(t))
  {
    forall i | 0 <= i < |Escape(t)| ensures !IsBreak(Escape(t)[i]) {
      EscapeChars(t, Escape(t)[i]);
    }
  }

  function Objects(es: seq<Entry>): seq<Document> {
    if es == [] then [] else [Object(Filled(es[0]))] + Objects(es[1..])
  }

  /**
   * NDJSON round trip: reading a serialised manifest gives the entries back, defaults filled in and
   * absent optional fields dropped, exactly when no printed string holds U+0085, U+2028 or U+2029;
   * otherwise reading fails.
   */
  lemma {:induction false} NdjsonRoundTrip(es: seq<Entry>)
    ensures ParseNdjson(Serialize(es)) ==
      if forall e :: e in es ==> OneLine(e) then Some(Objects(es)) else None
  {
    if es != [] {
      SerializeUnfold(es);
      NdjsonRoundTrip(es[1..]);
      var rest := Serialize(es[1..]);
      assert forall e :: e in es <==> e == es[0] || e in es[1..];
      if OneLine(es[0]) {
        WholeLine(es[0], rest);
      } else {
        BrokenLine(es[0], rest);
      }
    }
  }
}
