/**
 * The JSON that manifests use: flat objects of strings, integers, booleans and null, printed as
 * `json.dumps(..., ensure_ascii=False)` prints them and read as `json.loads` reads them.
 */
module Json {
  import opened Basics
  import opened Decimal

  datatype Value = Null | Boolean(b: bool) | Text(s: string) | Number(n: int)
  type Members = seq<(string, Value)>
  datatype Document = Scalar(v: Value) | Object(members: map<string, Value>)

  // ------------------------------------------------------------------ printing

  function HexChar(d: nat): (c: char)
    requires d < 16
    ensures HexValue(c) == Some(d) && c >= ' '
  {
    "0123456789abcdef"[d]
  }

  /** The letter after the backslash in a two-character escape. */
  function ShortCode(c: char): Option<char> {
    if c == '"' || c == '\\' then Some(c)
    else if c == '\n' then Some('n')
    else if c == '\r' then Some('r')
    else if c == '\t' then Some('t')
    else if c == '\U{C}' then Some('f')
    else if c == '\U{8}' then Some('b')
    else None
  }

  /** One character inside a string literal: quote, backslash and controls are escaped, nothing else is. */
  function EscapeChar(c: char): string {
    if ShortCode(c).Some? then ['\\', ShortCode(c).value]
    else if c < ' ' then ['\\', 'u', '0', '0', HexChar(c as int / 16), HexChar(c as int % 16)]
    else [c]
  }

  /** The escapes are those Python writes: the short ones, lower-case four-digit ones, and nothing else. */
  lemma EscapesAsPython(c: char)
    ensures EscapeChar('"') == ['\\', '"'] && EscapeChar('\\') == ['\\', '\\'] && EscapeChar('\n') == ['\\', 'n']
    ensures EscapeChar('\r') == ['\\', 'r'] && EscapeChar('\t') == ['\\', 't']
    ensures EscapeChar('\U{C}') == ['\\', 'f'] && EscapeChar('\U{8}') == ['\\', 'b']
    ensures EscapeChar('\0') == ['\\', 'u', '0', '0', '0', '0']
    ensures EscapeChar('\U{1F}') == ['\\', 'u', '0', '0', '1', 'f']
    ensures c >= ' ' && c != '"' && c != '\\' ==> EscapeChar(c) == [c]
    ensures c < ' ' && c !in {'\n', '\r', '\t', '\U{C}', '\U{8}'} ==> EscapeChar(c)[..4] == ['\\', 'u', '0', '0']
  {}

  function Escape(s: string): string { Flatten(seq(|s|, i requires 0 <= i < |s| => EscapeChar(s[i]))) }

  function Quote(s: string): string { ['"'] + (Escape(s) + ['"']) }

  function PrintValue(v: Value): string {
    match v
    case Null => "null"
    case Boolean(b) => if b then "true" else "false"
    case Text(s) => Quote(s)
    case Number(n) => if n < 0 then ['-'] + ToDec(-n) else ToDec(n)
  }

  function PrintMember(m: (string, Value)): string { Quote(m.0) + ([':', ' '] + PrintValue(m.1)) }

  function PrintMembers(ms: Members): string {
    if ms == [] then []
    else if |ms| == 1 then PrintMember(ms[0])
    else PrintMember(ms[0]) + ([',', ' '] + PrintMembers(ms[1..]))
  }

  function PrintObject(ms: Members): string { ['{'] + (PrintMembers(ms) + ['}']) }

  // ------------------------------------------------------------------ parsing

  function HexValue(c: char): (r: Option<nat>)
    ensures r.Some? ==> r.value < 16
  {
    if '0' <= c <= '9' then Some(c as int - '0' as int)
    else if 'a' <= c <= 'f' then Some(c as int - 'a' as int + 10)
    else if 'A' <= c <= 'F' then Some(c as int - 'A' as int + 10)
    else None
  }

  /** The four hex digits after a backslash and 'u'; surrogates are not characters here. */
  function HexEscape(s: string): Option<char>
    requires |s| >= 4
  {
    match (HexValue(s[0]), HexValue(s[1]), HexValue(s[2]), HexValue(s[3]))
    case (Some(a), Some(b), Some(c), Some(d)) =>
      var code := ((a * 16 + b) * 16 + c) * 16 + d;
      if 0xD800 <= code < 0xE000 then None else Some(code as char)
    case _ => None
  }

  function ShortEscape(c: char): Option<char> {
    if c == '"' || c == '\\' || c == '/' then Some(c)
    else if c == 'n' then Some('\n')
    else if c == 'r' then Some('\r')
    else if c == 't' then Some('\t')
    else if c == 'f' then Some('\U{C}')
    else if c == 'b' then Some('\U{8}')
    else None
  }

  /** The rest of a string literal after its opening quote: its value and what follows the closing quote. */
  function ParseChars(s: string): (r: Option<(string, string)>)
    ensures r.Some? ==> |r.value.1| < |s|
  {
    if s == "" || s[0] < ' ' then None
    else if s[0] == '"' then Some(("", s[1..]))
    else if s[0] != '\\' then Prepend(Some(s[0]), ParseChars(s[1..]))
    else if |s| < 2 then None
    else if s[1] != 'u' then Prepend(ShortEscape(s[1]), ParseChars(s[2..]))
    else if |s| < 6 then None
    else Prepend(HexEscape(s[2..6]), ParseChars(s[6..]))
  }

  function Prepend(c: Option<char>, r: Option<(string, string)>): Option<(string, string)> {
    if c.None? || r.None? then None else Some(([c.value] + r.value.0, r.value.1))
  }

  predicate IsBlank(c: char) { c == ' ' || c == '\t' || c == '\n' || c == '\r' }

  function SkipBlank(s: string): (r: string)
    ensures |r| <= |s|
  {
    if s != [] && IsBlank(s[0]) then SkipBlank(s[1..]) else s
  }

  function DigitRun(s: string): (n: nat)
    ensures n <= |s| && AllDigits(s[..n])
  {
    if s == "" || !IsDigit(s[0]) then 0 else
      var n := DigitRun(s[1..]);
      assert s[..n + 1] == [s[0]] + s[1..][..n];
      n + 1
  }

  /** The digits of an integer: "0" alone, or a run without a leading zero. A fraction or exponent is refused. */
  function ParseDigits(s: string): (r: Option<(nat, string)>)
    ensures r.Some? ==> |r.value.1| < |s|
  {
    var n := if s != "" && s[0] == '0' then 1 else DigitRun(s);
    if n == 0 || (n < |s| && s[n] in ".eE") then None else Some((FromDigits(s[..n]), s[n..]))
  }

  function ParseNumber(s: string): (r: Option<(Value, string)>)
    ensures r.Some? ==> |r.value.1| < |s|
  {
    var negative := s != [] && s[0] == '-';
    match ParseDigits(if negative then s[1..] else s)
    case None => None
    case Some((n, rest)) => var v: int := n; Some((Number(if negative then -v else v), rest))
  }

  function ParseText(s: string): (r: Option<(string, string)>)
    ensures r.Some? ==> |r.value.1| < |s|
  {
    if s == [] || s[0] != '"' then None else ParseChars(s[1..])
  }

  function ParseValue(s: string): (r: Option<(Value, string)>)
    ensures r.Some? ==> |r.value.1| < |s|
  {
    if s != [] && s[0] == '"' then
      match ParseText(s) case None => None case Some((t, rest)) => Some((Text(t), rest))
    else if "null" <= s then Some((Null, s[4..]))
    else if "true" <= s then Some((Boolean(true), s[4..]))
    else if "false" <= s then Some((Boolean(false), s[5..]))
    else ParseNumber(s)
  }

  /** A key, its colon, and the start of its value. */
  function ParseKey(s: string): (r: Option<(string, string)>)
    ensures r.Some? ==> |r.value.1| < |s|
  {
    match ParseText(s)
    case None => None
    case Some((key, afterKey)) =>
      var colon := SkipBlank(afterKey);
      if colon != [] && colon[0] == ':' then Some((key, SkipBlank(colon[1..]))) else None
  }

  /** One `key: value` pair, and what follows it. */
  function ParseMember(s: string): (r: Option<((string, Value), string)>)
    ensures r.Some? ==> |r.value.1| < |s|
  {
    match ParseKey(s)
    case None => None
    case Some((key, atValue)) =>
      match ParseValue(atValue)
      case None => None
      case Some((value, afterValue)) => Some(((key, value), SkipBlank(afterValue)))
  }

  /** The members of an object from a key's opening quote to past the closing brace; a later key wins. */
  function ParseMembers(s: string, seen: map<string, Value>): Option<(map<string, Value>, string)>
    decreases |s|
  {
    match ParseMember(s)
    case None => None
    case Some((m, next)) =>
      if next == [] then None
      else if next[0] == '}' then Some((seen[m.0 := m.1], next[1..]))
      else if next[0] == ',' then ParseMembers(SkipBlank(next[1..]), seen[m.0 := m.1])
      else None
  }

  function ParseObject(s: string): Option<(map<string, Value>, string)>
    requires s != ""
  {
    var inner := SkipBlank(s[1..]);
    if inner != "" && inner[0] == '}' then Some((map[], inner[1..])) else ParseMembers(inner, map[])
  }

  /** `json.loads(line)`; None where it raises. */
  function Loads(line: string): Option<Document> {
    var s := SkipBlank(line);
    if s != "" && s[0] == '{' then
      match ParseObject(s)
      case None => None
      case Some((m, rest)) => if SkipBlank(rest) == "" then Some(Object(m)) else None
    else
      match ParseValue(s)
      case None => None
      case Some((v, rest)) => if SkipBlank(rest) == "" then Some(Scalar(v)) else None
  }

  // ------------------------------------------------------------------ strings

  lemma Cons(c: char, s: string)
    ensures ([c] + s)[0] == c && ([c] + s)[1..] == s
  {}

  lemma Assoc(a: string, b: string, c: string)
    ensures (a + b) + c == a + (b + c)
  {}

  lemma EscapedCharRoundTrip(c: char, rest: string)
    ensures ParseChars(EscapeChar(c) + rest) == Prepend(Some(c), ParseChars(rest))
  {
    var e := EscapeChar(c);
    var s := e + rest;
    if ShortCode(c).Some? {
      assert s[0] == '\\' && s[1] == e[1] && s[2..] == rest;
      assert ShortEscape(e[1]) == Some(c);
    } else if c < ' ' {
      assert s[2..6] == e[2..6] && s[6..] == rest && s[0] == '\\' && s[1] == 'u';
      assert HexEscape(e[2..6]) == Some(c);
    } else {
      Cons(c, rest);
    }
  }

  lemma EscapeUnfold(s: string)
    ensures Escape(s) == if s == [] then [] else EscapeChar(s[0]) + Escape(s[1..])
  {
    if s != [] {
      var codes := seq(|s|, i requires 0 <= i < |s| => EscapeChar(s[i]));
      assert codes[1..] == seq(|s[1..]|, i requires 0 <= i < |s[1..]| => EscapeChar(s[1..][i]));
    }
  }

  lemma EscapeConcat(a: string, b: string)
    ensures Escape(a + b) == Escape(a) + Escape(b)
  {
    var ab := a + b;
    var codesA := seq(|a|, i requires 0 <= i < |a| => EscapeChar(a[i]));
    var codesB := seq(|b|, i requires 0 <= i < |b| => EscapeChar(b[i]));
    assert seq(|ab|, i requires 0 <= i < |ab| => EscapeChar(ab[i])) == codesA + codesB;
    FlattenConcat(codesA, codesB);
  }

  lemma EscapePush(s: string, c: char)
    ensures Escape(s + [c]) == Escape(s) + EscapeChar(c)
  {
    EscapeConcat(s, [c]);
    EscapeUnfold([c]);
    EscapeUnfold([c][1..]);
  }

  /** Any string, whatever its characters, is read back from its literal. */
  lemma {:induction false} LiteralRoundTrip(s: string, rest: string)
    ensures ParseChars(Escape(s) + (['"'] + rest)) == Some((s, rest))
  {
    var tail := ['"'] + rest;
    EscapeUnfold(s);
    if s == [] {
      Cons('"', rest);
      assert [] + tail == tail;
    } else {
      LiteralRoundTrip(s[1..], rest);
      EscapedCharRoundTrip(s[0], Escape(s[1..]) + tail);
      Assoc(EscapeChar(s[0]), Escape(s[1..]), tail);
      Cons(s[0], s[1..]);
      assert [s[0]] + s[1..] == s;
    }
  }

  /** A literal cut before its closing quote, between two of its characters, is refused. */
  lemma {:induction false} LiteralCut(s: string)
    ensures ParseChars(Escape(s)).None?
  {
    EscapeUnfold(s);
    if s != [] {
      LiteralCut(s[1..]);
      EscapedCharRoundTrip(s[0], Escape(s[1..]));
    }
  }

  lemma QuoteRoundTrip(s: string, rest: string)
    ensures ParseText(Quote(s) + rest) == Some((s, rest))
  {
    LiteralRoundTrip(s, rest);
    Assoc(['"'], Escape(s) + ['"'], rest);
    Assoc(Escape(s), ['"'], rest);
    Cons('"', Escape(s) + (['"'] + rest));
  }

  /** A literal holds no control character, and every character of it is plain ASCII or one of the string's. */
  lemma {:induction false} EscapeChars(s: string, c: char)
    requires c in Escape(s)
    ensures c >= ' ' && (c in s || c < '\U{7F}')
  {
    EscapeUnfold(s);
    if c in EscapeChar(s[0]) {
      if EscapeChar(s[0]) == [s[0]] { assert c == s[0]; }
    } else {
      EscapeChars(s[1..], c);
    }
  }

  // ------------------------------------------------------------------ values and objects

  ghost predicate EndsValue(rest: string) {
    rest == "" || rest[0] == ',' || rest[0] == '}'
  }

  lemma {:induction false} DigitRunExact(d: string, rest: string)
    requires AllDigits(d) && EndsValue(rest)
    ensures DigitRun(d + rest) == |d|
  {
    if d == [] {
      assert d + rest == rest;
    } else {
      DigitRunExact(d[1..], rest);
      assert (d + rest)[1..] == d[1..] + rest;
    }
  }

  lemma {:induction false} NoLeadingZero(n: nat)
    ensures ToDec(n)[0] == '0' ==> n == 0
  {
    if n >= 10 {
      NoLeadingZero(n / 10);
    }
  }

  lemma DigitsRoundTrip(n: nat, rest: string)
    requires EndsValue(rest)
    ensures ParseDigits(ToDec(n) + rest) == Some((n, rest))
  {
    var d := ToDec(n);
    DigitRunExact(d, rest);
    DecimalRoundTrip(n);
    NoLeadingZero(n);
    assert (d + rest)[..|d|] == d && (d + rest)[|d|..] == rest;
  }

  lemma {:induction false} NumberRoundTrip(n: int, rest: string)
    requires EndsValue(rest)
    ensures ParseNumber(PrintValue(Number(n)) + rest) == Some((Number(n), rest))
  {
    if n < 0 {
      NegativeRoundTrip(-n, rest);
    } else {
      DigitsRoundTrip(n, rest);
      assert IsDigit((ToDec(n) + rest)[0]);
    }
  }

  lemma NegativeRoundTrip(n: nat, rest: string)
    requires EndsValue(rest) && n > 0
    ensures var v: int := n; ParseNumber((['-'] + ToDec(n)) + rest) == Some((Number(-v), rest))
  {
    DigitsRoundTrip(n, rest);
    Assoc(['-'], ToDec(n), rest);
    Cons('-', ToDec(n) + rest);
  }

  lemma NumberStart(n: int, rest: string)
    ensures var s := PrintValue(Number(n)) + rest; s != [] && (IsDigit(s[0]) || s[0] == '-')
  {}

  lemma OnlyNumber(s: string)
    requires s != [] && (IsDigit(s[0]) || s[0] == '-')
    ensures ParseValue(s) == ParseNumber(s)
  {}

  lemma ValueRoundTrip(v: Value, rest: string)
    requires EndsValue(rest)
    ensures ParseValue(PrintValue(v) + rest) == Some((v, rest))
  {
    var s := PrintValue(v) + rest;
    match v
    case Null => assert s[0] == 'n' && s[1] == 'u' && s[2] == 'l' && s[3] == 'l' && s[4..] == rest;
    case Boolean(b) => WordRoundTrip(b, rest);
    case Text(t) => QuoteRoundTrip(t, rest); assert s[0] == '"';
    case Number(n) => NumberRoundTrip(n, rest); NumberStart(n, rest); OnlyNumber(s);
  }

  lemma WordRoundTrip(b: bool, rest: string)
    ensures ParseValue(PrintValue(Boolean(b)) + rest) == Some((Boolean(b), rest))
  {
    var s := PrintValue(Boolean(b)) + rest;
    if b {
      assert s[0] == 't' && s[1] == 'r' && s[2] == 'u' && s[3] == 'e' && s[4..] == rest;
    } else {
      assert s[0] == 'f' && s[1] == 'a' && s[2] == 'l' && s[3] == 's' && s[4] == 'e' && s[5..] == rest;
    }
  }

  lemma ValueStart(v: Value)
    ensures PrintValue(v) != [] && !IsBlank(PrintValue(v)[0])
  {
    if v.Number? && v.n >= 0 {
      assert IsDigit(PrintValue(v)[0]);
    }
  }

  /** Folding printed members into a dictionary, a later key replacing an earlier one. */
  function Dictionary(ms: Members, seen: map<string, Value>): map<string, Value> {
    if ms == [] then seen else Dictionary(ms[1..], seen[ms[0].0 := ms[0].1])
  }

  lemma KeyRoundTrip(key: string, atValue: string)
    requires atValue != [] && !IsBlank(atValue[0])
    ensures ParseKey(Quote(key) + ([':', ' '] + atValue)) == Some((key, atValue))
  {
    var colon := [':', ' '] + atValue;
    QuoteRoundTrip(key, colon);
    assert colon[1..] == [' '] + atValue;
    Cons(' ', atValue);
    assert SkipBlank(colon[1..]) == SkipBlank(atValue) == atValue;
  }

  /** One printed member in front of anything that can follow it is read as that member. */
  lemma MemberRoundTrip(m: (string, Value), rest: string)
    requires rest != [] && EndsValue(rest)
    ensures ParseMember(PrintMember(m) + rest) == Some((m, rest))
  {
    var value := PrintValue(m.1) + rest;
    ValueStart(m.1);
    assert value[0] == PrintValue(m.1)[0];
    KeyRoundTrip(m.0, value);
    ValueRoundTrip(m.1, rest);
    Assoc(Quote(m.0), [':', ' '] + PrintValue(m.1), rest);
    Assoc([':', ' '], PrintValue(m.1), rest);
  }

  /** Reading past one member and the comma after it. */
  lemma AfterComma(m: (string, Value), inner: string, seen: map<string, Value>)
    requires inner != [] && inner[0] == '"'
    ensures ParseMembers(PrintMember(m) + ([',', ' '] + inner), seen) == ParseMembers(inner, seen[m.0 := m.1])
  {
    var next := [',', ' '] + inner;
    MemberRoundTrip(m, next);
    assert next[1..] == [' '] + inner;
    Cons(' ', inner);
    assert SkipBlank(next[1..]) == SkipBlank(inner) == inner;
  }

  lemma {:induction false} MembersRoundTrip(ms: Members, rest: string, seen: map<string, Value>)
    requires ms != []
    ensures ParseMembers(PrintMembers(ms) + (['}'] + rest), seen) == Some((Dictionary(ms, seen), rest))
  {
    var brace := ['}'] + rest;
    Cons('}', rest);
    if |ms| == 1 {
      MemberRoundTrip(ms[0], brace);
      assert ms[1..] == [];
    } else {
      var inner := PrintMembers(ms[1..]) + brace;
      MembersRoundTrip(ms[1..], rest, seen[ms[0].0 := ms[0].1]);
      AfterComma(ms[0], inner, seen);
      Assoc(PrintMember(ms[0]), [',', ' '] + PrintMembers(ms[1..]), brace);
      Assoc([',', ' '], PrintMembers(ms[1..]), brace);
    }
  }

  /** A printed object reads back as the dictionary of its members. */
  lemma ObjectRoundTrip(ms: Members)
    requires ms != []
    ensures Loads(PrintObject(ms)) == Some(Object(Dictionary(ms, map[])))
  {
    var inner := PrintMembers(ms) + ['}'];
    MembersRoundTrip(ms, [], map[]);
    assert ['}'] + [] == ['}'];
    LoadsObject(inner, Dictionary(ms, map[]));
  }

  lemma {:induction false} LoadsObject(inner: string, m: map<string, Value>)
    requires inner != [] && inner[0] == '"' && ParseMembers(inner, map[]) == Some((m, []))
    ensures Loads(['{'] + inner) == Some(Object(m))
  {
    Cons('{', inner);
  }

  /** Members `done` in full, then a member whose text value has been printed only up to `t`. */
  function CutMembers(done: Members, key: string, t: string): (r: string)
    ensures r != [] && r[0] == '"'
  {
    if done == [] then Quote(key) + ([':', ' '] + (['"'] + Escape(t)))
    else PrintMember(done[0]) + ([',', ' '] + CutMembers(done[1..], key, t))
  }

  /** An object cut inside the text value of its last printed member is refused. */
  lemma {:induction false} MembersCut(done: Members, key: string, t: string, seen: map<string, Value>)
    ensures ParseMembers(CutMembers(done, key, t), seen).None?
    decreases |done|
  {
    if done == [] {
      KeyRoundTrip(key, ['"'] + Escape(t));
      Cons('"', Escape(t));
      LiteralCut(t);
    } else {
      MembersCut(done[1..], key, t, seen[done[0].0 := done[0].1]);
      AfterComma(done[0], CutMembers(done[1..], key, t), seen);
    }
  }

  lemma ObjectCut(done: Members, key: string, t: string)
    ensures Loads(['{'] + CutMembers(done, key, t)).None?
  {
    MembersCut(done, key, t, map[]);
    Cons('{', CutMembers(done, key, t));
  }

  // ------------------------------------------------------------------ which characters appear

  predicate Plain(c: char) { ' ' <= c < '\U{7F}' }

  /** `c` is one of the characters of the members' keys or text values. */
  ghost predicate Carries(ms: Members, c: char) {
    exists i :: 0 <= i < |ms| && (c in ms[i].0 || (ms[i].1.Text? && c in ms[i].1.s))
  }

  lemma ValueChars(v: Value, c: char)
    requires c in PrintValue(v)
    ensures Plain(c) || (c > ' ' && v.Text? && c in v.s)
  {
    if v.Text? {
      if c in Escape(v.s) { EscapeChars(v.s, c); }
    } else if v.Number? {
      assert IsDigit(c) || c == '-';
    }
  }

  lemma MemberChars(m: (string, Value), c: char)
    requires c in PrintMember(m)
    ensures Plain(c) || (c > ' ' && (c in m.0 || (m.1.Text? && c in m.1.s)))
  {
    if c in Escape(m.0) { EscapeChars(m.0, c); }
    if c in PrintValue(m.1) { ValueChars(m.1, c); }
  }

  lemma {:induction false} MembersChars(ms: Members, c: char)
    requires c in PrintMembers(ms)
    ensures Plain(c) || (c > ' ' && Carries(ms, c))
  {
    if ms != [] {
      if c in PrintMember(ms[0]) {
        MemberChars(ms[0], c);
      } else if c != ',' && c != ' ' {
        MembersChars(ms[1..], c);
        if Carries(ms[1..], c) {
          var i :| 0 <= i < |ms[1..]| && (c in ms[1..][i].0 || (ms[1..][i].1.Text? && c in ms[1..][i].1.s));
          assert ms[i + 1] == ms[1..][i];
        }
      }
    }
  }
}
