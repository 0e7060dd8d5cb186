/** Splitting text at a separator and joining it again. */
module Text {

  /** `s.split(sep)` for a one-character separator */
  function Split(s: string, sep: char): (parts: seq<string>)
    ensures |parts| >= 1
    ensures forall i :: 0 <= i < |parts| ==> sep !in parts[i]
  {
    if s == [] then [""]
    else if s[0] == sep then [""] + Split(s[1..], sep)
    else [[s[0]] + Split(s[1..], sep)[0]] + Split(s[1..], sep)[1..]
  }

  /** `sep.join(parts)` */
  function Join(parts: seq<string>, sep: char): string {
    if parts == [] then "" else if |parts| == 1 then parts[0] else parts[0] + [sep] + Join(parts[1..], sep)
  }

  lemma {:induction false} SplitUnit(a: string, b: string, sep: char)
    requires sep !in a
    ensures Split(a + [sep] + b, sep) == [a] + Split(b, sep)
  {
    var s := a + [sep] + b;
    if a == [] {
      assert s[0] == sep && s[1..] == b;
    } else {
      SplitUnit(a[1..], b, sep);
      assert s[1..] == a[1..] + [sep] + b;
      assert [a[0]] + a[1..] == a;
    }
  }

  lemma {:induction false} SplitWhole(a: string, sep: char)
    requires sep !in a
    ensures Split(a, sep) == [a]
  {
    if a != [] {
      SplitWhole(a[1..], sep);
      assert [a[0]] + a[1..] == a;
    }
  }

  lemma {:induction false} SplitJoin(parts: seq<string>, sep: char)
    requires parts != [] && forall i :: 0 <= i < |parts| ==> sep !in parts[i]
    ensures Split(Join(parts, sep), sep) == parts
  {
    if |parts| == 1 {
      SplitWhole(parts[0], sep);
    } else {
      SplitJoin(parts[1..], sep);
      SplitUnit(parts[0], Join(parts[1..], sep), sep);
    }
  }

  lemma {:induction false} JoinSplit(s: string, sep: char)
    ensures Join(Split(s, sep), sep) == s
  {
    if s != [] {
      JoinSplit(s[1..], sep);
      var rest := Split(s[1..], sep);
      if s[0] == sep {
        assert ([""] + rest)[1..] == rest;
        assert "" + [sep] + s[1..] == s;
      } else {
        assert ([[s[0]] + rest[0]] + rest[1..])[1..] == rest[1..];
        assert [s[0]] + s[1..] == s;
      }
    }
  }

  lemma {:induction false} JoinChars(parts: seq<string>, c: char, sep: char)
    requires c in Join(parts, sep)
    ensures c == sep || exists i :: 0 <= i < |parts| && c in parts[i]
  {
    if |parts| > 1 && c !in parts[0] && c != sep {
      JoinChars(parts[1..], c, sep);
      var i :| 0 <= i < |parts[1..]| && c in parts[1..][i];
      assert c in parts[i + 1];
    }
  }

  lemma {:induction false} SplitChars(s: string, i: nat, c: char, sep: char)
    requires i < |Split(s, sep)| && c in Split(s, sep)[i]
    ensures c in s
  {
    if s != [] {
      var rest := Split(s[1..], sep);
      if s[0] == sep {
        assert i > 0 && Split(s, sep)[i] == rest[i - 1];
        SplitChars(s[1..], i - 1, c, sep);
      } else if i == 0 {
        if c != s[0] { SplitChars(s[1..], 0, c, sep); }
      } else {
        assert Split(s, sep)[i] == rest[i];
        SplitChars(s[1..], i, c, sep);
      }
    }
  }

  // ------------------------------------------------------------------ lines

  /** The characters at which `str.splitlines` ends a line. */
  predicate IsBreak(c: char) {
    || '\n' <= c <= '\r'
    || '\U{1C}' <= c <= '\U{1E}'
    || c == '\U{85}' || c == '\U{2028}' || c == '\U{2029}'
  }

  predicate NoBreak(s: string) { forall i :: 0 <= i < |s| ==> !IsBreak(s[i]) }

  /** The position of the first line break of `s`, or |s|. */
  function BreakAt(s: string): (i: nat)
    ensures i <= |s| && NoBreak(s[..i]) && (i < |s| ==> IsBreak(s[i]))
  {
    if s == [] || IsBreak(s[0]) then 0
    else
      var i := BreakAt(s[1..]);
      assert forall k :: 0 <= k < i ==> s[k + 1] == s[1..][..i][k];
      i + 1
  }

  /** `s.splitlines()`: a carriage return and the line feed after it are one break. */
  function SplitLines(s: string): seq<string>
    decreases |s|
  {
    if s == [] then []
    else
      var i := BreakAt(s);
      if i == |s| then [s]
      else if s[i] == '\r' && i + 1 < |s| && s[i + 1] == '\n' then [s[..i]] + SplitLines(s[i + 2..])
      else [s[..i]] + SplitLines(s[i + 1..])
  }

  lemma FirstLine(a: string, c: char, rest: string)
    requires NoBreak(a) && IsBreak(c) && c != '\r'
    ensures SplitLines(a + ([c] + rest)) == [a] + SplitLines(rest)
  {
    BreakAfter(a, c, rest);
    SplitAt(a + ([c] + rest), |a|, a, rest);
  }

  /** The first break comes right after a stretch without one. */
  lemma {:induction false} BreakAfter(a: string, c: char, rest: string)
    requires NoBreak(a) && IsBreak(c)
    ensures BreakAt(a + ([c] + rest)) == |a|
  {
    var s := a + ([c] + rest);
    if a == [] {
      assert s[0] == c;
    } else {
      BreakAfter(a[1..], c, rest);
      assert s[0] == a[0] && s[1..] == a[1..] + ([c] + rest);
    }
  }

  lemma {:induction false} SplitAt(s: string, i: nat, first: string, rest: string)
    requires BreakAt(s) == i < |s| && s[i] != '\r' && s[..i] == first && s[i + 1..] == rest
    ensures SplitLines(s) == [first] + SplitLines(rest)
  {}
}
