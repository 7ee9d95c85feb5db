/** The string operations of the JavaScript source (`split`, `trim`, `includes`, `startsWith`, `endsWith`). */
module Text {

  /** The characters `String.prototype.trim` removes: white space and line terminators. */
  predicate IsWhitespace(c: char) {
    c == ' ' || c == '\t' || c == '\n' || c == '\r' || c == '\U{B}' || c == '\U{C}'
    || c == '\U{A0}' || c == '\U{1680}' || ('\U{2000}' <= c <= '\U{200A}')
    || c == '\U{2028}' || c == '\U{2029}' || c == '\U{202F}' || c == '\U{205F}'
    || c == '\U{3000}' || c == '\U{FEFF}'
  }

  /** `s.trimStart()` */
  function TrimStart(s: string): string {
    if s != [] && IsWhitespace(s[0]) then TrimStart(s[1..]) else s
  }

  /** `s.trimEnd()` */
  function TrimEnd(s: string): string {
    if s != [] && IsWhitespace(s[|s| - 1]) then TrimEnd(s[..|s| - 1]) else s
  }

  /** `trimStart` removes exactly the leading white space: what is left is a suffix starting with a non-blank. */
  lemma {:induction false} TrimStartShape(s: string)
    ensures var r := TrimStart(s);
      && |r| <= |s| && r == s[|s| - |r|..]
      && (r == [] || !IsWhitespace(r[0]))
      && forall i :: 0 <= i < |s| - |r| ==> IsWhitespace(s[i])
  {
    if s != [] && IsWhitespace(s[0]) {
      var tail := s[1..];
      TrimStartShape(tail);
      var r := TrimStart(tail);
      assert TrimStart(s) == r;
      assert tail[|tail| - |r|..] == s[|s| - |r|..];
      forall i | 0 <= i < |s| - |r| ensures IsWhitespace(s[i]) {
        if i > 0 {
          assert s[i] == tail[i - 1];
        }
      }
    }
  }

  /** `trimEnd` removes exactly the trailing white space: what is left is a prefix ending with a non-blank. */
  lemma {:induction false} TrimEndShape(s: string)
    ensures var r := TrimEnd(s);
      && |r| <= |s| && r == s[..|r|]
      && (r == [] || !IsWhitespace(r[|r| - 1]))
      && forall i :: |r| <= i < |s| ==> IsWhitespace(s[i])
  {
    if s != [] && IsWhitespace(s[|s| - 1]) {
      var init := s[..|s| - 1];
      TrimEndShape(init);
      var r := TrimEnd(init);
      assert TrimEnd(s) == r;
      assert init[..|r|] == s[..|r|];
      forall i | |r| <= i < |s| ensures IsWhitespace(s[i]) {
        if i < |s| - 1 {
          assert s[i] == init[i];
        }
      }
    }
  }

  /** `s.trim()` */
  function Trim(s: string): string {
    TrimStart(TrimEnd(s))
  }

  /** When `s[p]` is the last character of `s` that is not white space, the trimmed text ends with it. */
  lemma TrimEndsAt(s: string, p: nat)
    requires p < |s| && !IsWhitespace(s[p])
    requires forall j :: p < j < |s| ==> IsWhitespace(s[j])
    ensures |TrimEnd(s)| == p + 1
    ensures Trim(s) != [] && Trim(s)[|Trim(s)| - 1] == s[p]
  {
    var r := TrimEnd(s);
    TrimEndShape(s);
    TrimStartShape(r);
    assert |r| > p;
    assert |r| <= p + 1 by {
      assert r == [] || !IsWhitespace(s[|r| - 1]);
    }
    var t := TrimStart(r);
    assert t != [] by {
      assert 0 <= p < |r| && r[p] == s[p];
    }
  }

  /** Trimming text that starts with a non-blank character only cuts its tail, after its last non-blank one. */
  lemma TrimKeepsHead(s: string, p: nat)
    requires p < |s| && !IsWhitespace(s[p]) && !IsWhitespace(s[0])
    requires forall j :: p < j < |s| ==> IsWhitespace(s[j])
    ensures Trim(s) == s[..p + 1]
  {
    TrimEndsAt(s, p);
    var r := TrimEnd(s);
    TrimEndShape(s);
    TrimStartShape(r);
    assert r[0] == s[0];
    assert |TrimStart(r)| == |r|;
  }

  /**
   * A line whose trimmed text is non-empty keeps its last non-blank character, at `p` below,
   * as the last non-blank one of `a + line + b` when `b` is white space.
   */
  lemma LastNonBlankOf(a: string, line: string, b: string)
    requires Trim(line) != []
    requires forall j :: 0 <= j < |b| ==> IsWhitespace(b[j])
    ensures var s, p := a + line + b, |a| + |TrimEnd(line)| - 1;
      && |a| <= p < |a| + |line| && s[p] == Trim(line)[|Trim(line)| - 1] && !IsWhitespace(s[p])
      && forall j :: p < j < |s| ==> IsWhitespace(s[j])
  {
    var r := TrimEnd(line);
    var t := TrimStart(r);
    TrimEndShape(line);
    TrimStartShape(r);
    assert t[|t| - 1] == r[|r| - 1];
    var p := |a| + |r| - 1;
    var s := a + line + b;
    assert s[p] == line[|r| - 1];
    forall j | p < j < |s| ensures IsWhitespace(s[j]) {
      if j < |a| + |line| {
        assert s[j] == line[j - |a|];
      } else {
        assert s[j] == b[j - |a| - |line|];
      }
    }
  }

  /** `s.startsWith(p)` */
  predicate StartsWith(s: string, p: string) {
    |p| <= |s| && s[..|p|] == p
  }

  /** `s.endsWith(p)` */
  predicate EndsWith(s: string, p: string) {
    |p| <= |s| && s[|s| - |p|..] == p
  }

  /** `s.includes(p)` */
  predicate Contains(s: string, p: string) {
    exists i :: 0 <= i <= |s| - |p| && StartsWith(s[i..], p)
  }

  /** `s.split(sep)` for a one-character separator: always at least one piece. */
  function Split(s: string, sep: char): (parts: seq<string>)
    ensures |parts| >= 1
    ensures forall k :: 0 <= k < |parts| ==> sep !in parts[k]
  {
    if s == [] then [""]
    else
      var rest := Split(s[1..], sep);
      if s[0] == sep then [""] + rest else [[s[0]] + rest[0]] + rest[1..]
  }

  /** The pieces put back together with `sep` between them (`pieces.join(sep)`). */
  function Join(parts: seq<string>, sep: char): string {
    if parts == [] then ""
    else if |parts| == 1 then parts[0]
    else parts[0] + [sep] + Join(parts[1..], sep)
  }

  /** Splitting loses nothing: joining the pieces gives back the input. */
  lemma {:induction false} JoinSplit(s: string, sep: char)
    ensures Join(Split(s, sep), sep) == s
  {
    if s != [] {
      JoinSplit(s[1..], sep);
      var rest := Split(s[1..], sep);
      if s[0] != sep {
        if |rest| > 1 {
          assert Join(rest, sep) == rest[0] + [sep] + Join(rest[1..], sep);
        }
      }
    }
  }

  /** The decimal digits of a natural number, as `String(n)` writes them. */
  function NatToString(n: nat): (s: string)
    ensures |s| >= 1
    ensures forall i :: 0 <= i < |s| ==> '0' <= s[i] <= '9'
    ensures DigitsValue(s) == n
    ensures n >= 10 ==> s[0] != '0'
  {
    if n < 10 then [Digit(n)]
    else
      var front := NatToString(n / 10);
      var s := front + [Digit(n % 10)];
      assert s[..|s| - 1] == front;
      s
  }

  /** The number a string of decimal digits denotes, most significant digit first. */
  function DigitsValue(s: string): nat
    requires forall i :: 0 <= i < |s| ==> '0' <= s[i] <= '9'
  {
    if |s| == 0 then 0
    else DigitsValue(s[..|s| - 1]) * 10 + (s[|s| - 1] as int - '0' as int)
  }

  function Digit(d: nat): (c: char)
    requires d < 10
    ensures '0' <= c <= '9'
    ensures c as int - '0' as int == d
  {
    ['0', '1', '2', '3', '4', '5', '6', '7', '8', '9'][d]
  }
}
