/** String helpers shared by the model: prefix scans, substring search, ASCII case mapping,
    JavaScript's `trim`, decimal rendering of naturals (`String(n)` for a non-negative integer)
    and JavaScript's `slice` at both ends. Strings are sequences of UTF-16 code units in the
    source; here each `char` stands for one code unit. */
module Strings {
  import opened Wrappers

  /** Length of the longest prefix of `s` all of whose characters satisfy `P`. */
  function Span(s: string, P: char -> bool): (n: nat)
    ensures n <= |s|
    ensures forall i :: 0 <= i < n ==> P(s[i])
    ensures n < |s| ==> !P(s[n])
  {
    if s == [] || !P(s[0]) then 0 else 1 + Span(s[1..], P)
  }

  /** The two properties in Span's contract determine it. */
  lemma SpanIs(s: string, P: char -> bool, k: nat)
    requires k <= |s|
    requires forall i :: 0 <= i < k ==> P(s[i])
    requires k < |s| ==> !P(s[k])
    ensures Span(s, P) == k
  {
  }

  /** A prefix made only of characters satisfying `P` is crossed entirely by the scan. */
  lemma SpanAppend(p: string, r: string, P: char -> bool)
    requires forall c | c in p :: P(c)
    ensures Span(p + r, P) == |p| + Span(r, P)
  {
    var s := p + r;
    var k := |p| + Span(r, P);
    forall i | 0 <= i < k
      ensures P(s[i])
    {
      if i < |p| {
        assert s[i] == p[i] && p[i] in p;
      } else {
        assert s[i] == r[i - |p|];
      }
    }
    if k < |s| {
      assert s[k] == r[Span(r, P)];
    }
    SpanIs(s, P, k);
  }

  /** The scan stops at once on a character that fails `P`. */
  lemma SpanStops(c: char, r: string, P: char -> bool)
    requires !P(c)
    ensures Span([c] + r, P) == 0
  {
    SpanIs([c] + r, P, 0);
  }

  /** A string whose every character satisfies `P` is crossed entirely. */
  lemma SpanAll(s: string, P: char -> bool)
    requires forall c | c in s :: P(c)
    ensures Span(s, P) == |s|
  {
    SpanAppend(s, [], P);
    assert s + [] == s;
  }

  predicate StartsWith(s: string, prefix: string) {
    |prefix| <= |s| && s[..|prefix|] == prefix
  }

  /** JavaScript's `s.includes(sub)`. */
  predicate Contains(s: string, sub: string)
    decreases |s|
  {
    StartsWith(s, sub) || (s != [] && Contains(s[1..], sub))
  }

  /** `Contains` holds exactly when `sub` occurs at some position of `s`. */
  lemma {:induction false} ContainsAt(s: string, sub: string, i: nat)
    requires i + |sub| <= |s| && s[i..i + |sub|] == sub
    ensures Contains(s, sub)
    decreases i
  {
    if i > 0 {
      assert s[1..][i - 1..i - 1 + |sub|] == s[i..i + |sub|];
      ContainsAt(s[1..], sub, i - 1);
    }
  }

  /** Text in which no two characters `j` apart match the first and the `j`-th character of
      `sub` cannot contain `sub`. */
  lemma {:induction false} NotContainsPair(s: string, sub: string, j: nat)
    requires j < |sub|
    requires forall i: nat | i + |sub| <= |s| :: s[i] != sub[0] || s[i + j] != sub[j]
    ensures !Contains(s, sub)
    decreases |s|
  {
    if |sub| <= |s| {
      assert s[..|sub|][0] == s[0] && s[..|sub|][j] == s[j];
    }
    if s != [] {
      forall i: nat | i + |sub| <= |s[1..]|
        ensures s[1..][i] != sub[0] || s[1..][i + j] != sub[j]
      {
        assert s[1..][i] == s[i + 1] && s[1..][i + j] == s[i + 1 + j];
      }
      NotContainsPair(s[1..], sub, j);
    }
  }

  /** The three parts of `p + m + q` are found back by position. */
  lemma SplitThree(p: string, m: string, q: string)
    ensures var s := p + m + q;
      s[..|p|] == p && s[|s| - |q|..] == q && s[|p|..|s| - |q|] == m
  {
  }

  predicate IsAsciiUpper(c: char) { 'A' <= c <= 'Z' }

  predicate IsAsciiLetter(c: char) { 'a' <= c <= 'z' || 'A' <= c <= 'Z' }

  predicate IsDigit(c: char) { '0' <= c <= '9' }

  function AsciiLowerChar(c: char): char {
    if IsAsciiUpper(c) then (c as int + 32) as char else c
  }

  /** ASCII lower-casing, position by position. */
  function AsciiLower(s: string): (r: string)
    ensures |r| == |s|
    ensures forall i :: 0 <= i < |s| ==> r[i] == AsciiLowerChar(s[i])
  {
    seq(|s|, i requires 0 <= i < |s| => AsciiLowerChar(s[i]))
  }

  lemma AsciiLowerUnchanged(s: string)
    requires forall c | c in s :: !IsAsciiUpper(c)
    ensures AsciiLower(s) == s
  {
    forall i | 0 <= i < |s|
      ensures AsciiLower(s)[i] == s[i]
    {
      assert s[i] in s;
    }
  }

  /** White space and line terminators as JavaScript's `String.prototype.trim` removes them. */
  predicate IsJsWhitespace(c: char) {
    c == '\t' || c == '\n' || c == '\U{000B}' || c == '\U{000C}' || c == '\r' || c == ' '
    || c == '\U{00A0}' || c == '\U{1680}' || ('\U{2000}' <= c <= '\U{200A}')
    || c == '\U{2028}' || c == '\U{2029}' || c == '\U{202F}' || c == '\U{205F}'
    || c == '\U{3000}' || c == '\U{FEFF}'
  }

  /** `s` without its trailing characters satisfying `P`. */
  function TrimEnd(s: string, P: char -> bool): (r: string)
    ensures |r| <= |s| && r == s[..|r|]
    ensures r != [] ==> !P(r[|r| - 1])
    ensures forall i :: |r| <= i < |s| ==> P(s[i])
  {
    if s != [] && P(s[|s| - 1]) then TrimEnd(s[..|s| - 1], P) else s
  }

  /** `s` without its leading and trailing characters satisfying `P`. */
  function Trim(s: string, P: char -> bool): (r: string)
  {
    TrimEnd(s[Span(s, P)..], P)
  }

  /** JavaScript's `s.trim()`. */
  function JsTrim(s: string): string {
    Trim(s, IsJsWhitespace)
  }

  /** Trimming leaves a string alone when its ends do not satisfy `P`. */
  lemma TrimUnchanged(s: string, P: char -> bool)
    requires s != [] ==> !P(s[0]) && !P(s[|s| - 1])
    ensures Trim(s, P) == s
  {
    if s != [] {
      SpanIs(s, P, 0);
    }
  }

  function DigitChar(d: nat): char
    requires d < 10
  {
    ('0' as int + d) as char
  }

  function DigitValue(c: char): nat
    requires IsDigit(c)
  {
    c as int - '0' as int
  }

  predicate AllDigits(s: string) {
    forall c | c in s :: IsDigit(c)
  }

  /** JavaScript's `String(n)` for a non-negative integer: its decimal digits, no leading zero. */
  function NatToString(n: nat): (s: string)
    ensures s != [] && AllDigits(s)
    ensures |s| > 1 ==> s[0] != '0'
  {
    if n < 10 then [DigitChar(n)] else NatToString(n / 10) + [DigitChar(n % 10)]
  }

  /** The number a string of decimal digits denotes. */
  function DecimalValue(s: string): nat
    requires AllDigits(s)
  {
    if s == [] then 0
    else
      assert s[|s| - 1] in s;
      DecimalValue(s[..|s| - 1]) * 10 + DigitValue(s[|s| - 1])
  }

  /** Reading back a rendered natural gives the natural: rendering loses nothing. */
  lemma {:induction false} DecimalRoundTrip(n: nat)
    ensures DecimalValue(NatToString(n)) == n
  {
    if n >= 10 {
      var s := NatToString(n);
      assert s[..|s| - 1] == NatToString(n / 10);
      DecimalRoundTrip(n / 10);
    }
  }

  /** Different naturals render differently. */
  lemma NatToStringInjective(m: nat, n: nat)
    requires NatToString(m) == NatToString(n)
    ensures m == n
  {
    DecimalRoundTrip(m);
    DecimalRoundTrip(n);
  }

  /** JavaScript's `s.slice(0, n)` for `n >= 0`: at most the first `n` code units. */
  function TakeFirst(s: string, n: nat): (r: string)
    ensures |r| == if |s| < n then |s| else n
    ensures r == s[..|r|]
  {
    if |s| <= n then s else s[..n]
  }

  /** JavaScript's `s.slice(-n)` for `n > 0`: at most the last `n` code units. */
  function TakeLast(s: string, n: nat): (r: string)
    requires n > 0
    ensures |r| == if |s| < n then |s| else n
    ensures r == s[|s| - |r|..]
  {
    if |s| <= n then s else s[|s| - n..]
  }

  /** JavaScript's `s.slice(1)`: everything after the first code unit. */
  function DropFirst(s: string): (r: string)
    ensures s != [] ==> s == [s[0]] + r
    ensures s == [] ==> r == []
  {
    if s == [] then [] else s[1..]
  }
}
