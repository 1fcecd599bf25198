/** A simplified reading of the WHATWG URL Standard, as far as `new URL(input)` (basic URL
    parsing without a base, section 4.4), the `hostname` and `pathname` getters and
    `searchParams.get(name)` (application/x-www-form-urlencoded parsing, section 5.1) are used by
    the video-id extraction.

    Kept from the standard: removal of leading and trailing C0 control or space and of every tab
    or newline; the scheme grammar (an ASCII letter, then letters, digits, `+`, `-`, `.`, then
    `:`); failure without a scheme; the special schemes, for which any run of slashes after the
    scheme is skipped, the host may not be empty and is ASCII lower-cased, and an empty path reads
    as `/`; `//` introducing an authority for other schemes; credentials before the last `@`; a
    port of decimal digits not above 65535; the query between `?` and `#`; `&`-separated pairs,
    the first `=` splitting name from value, `+` read as a space, empty pairs skipped, the first
    pair with the asked name winning.
    Simplified: backslashes are ordinary characters, IPv4/IPv6 hosts and IDNA are not parsed,
    percent-encoding is neither applied by the parser nor undone by `searchParams`, dot segments
    in the path are not resolved, and `file:` is not treated as special. */
module WhatwgUrl {
  import opened Wrappers
  import opened Strings

  /** The parts of a parsed URL that the model reads. */
  datatype Url = Url(scheme: string, hostname: string, pathname: string, query: Option<string>)

  const SpecialSchemes: set<string> := {"http", "https", "ws", "wss", "ftp"}

  predicate IsC0ControlOrSpace(c: char) { c <= ' ' }

  predicate IsTabOrNewline(c: char) { c == '\t' || c == '\n' || c == '\r' }

  predicate IsSchemeChar(c: char) {
    IsAsciiLetter(c) || IsDigit(c) || c == '+' || c == '-' || c == '.'
  }

  predicate IsSlash(c: char) { c == '/' }

  /** Characters that do not end the authority. */
  predicate InAuthority(c: char) { c != '/' && c != '?' && c != '#' }

  predicate NotColon(c: char) { c != ':' }

  /** Characters that do not end the path. */
  predicate InPath(c: char) { c != '?' && c != '#' }

  predicate NotHash(c: char) { c != '#' }

  predicate NotAmpersand(c: char) { c != '&' }

  predicate NotEquals(c: char) { c != '=' }

  /** Host code points the standard forbids (a simplified list). */
  predicate IsForbiddenHostChar(c: char) {
    c < ' ' || c == ' ' || c == '<' || c == '>' || c == '[' || c == ']' || c == '\\' || c == '^'
    || c == '|' || c == '\U{007F}'
  }

  /** Every character of `s` except tabs and newlines, in order. */
  function StripTabNewline(s: string): (r: string)
    ensures forall c | c in r :: c in s && !IsTabOrNewline(c)
  {
    if s == [] then []
    else (if IsTabOrNewline(s[0]) then [] else [s[0]]) + StripTabNewline(s[1..])
  }

  lemma {:induction false} StripTabNewlineUnchanged(s: string)
    requires forall c | c in s :: !IsTabOrNewline(c)
    ensures StripTabNewline(s) == s
  {
    if s != [] {
      assert s[0] in s;
      assert forall c | c in s[1..] :: c in s;
      StripTabNewlineUnchanged(s[1..]);
    }
  }

  /** The input after the standard's preprocessing. */
  function Preprocess(input: string): (s: string)
    ensures forall c | c in s :: c in input
  {
    var t := Trim(input, IsC0ControlOrSpace);
    assert forall c | c in t :: c in input by {
      var k := Span(input, IsC0ControlOrSpace);
      forall c | c in t ensures c in input {
        var i :| 0 <= i < |t| && t[i] == c;
        assert t[i] == input[k..][i];
      }
    }
    StripTabNewline(t)
  }

  /** Index just after the last `c` in `s`, or 0 when there is none. */
  function AfterLast(s: string, c: char): (k: nat)
    ensures k <= |s|
  {
    if s == [] then 0 else if s[|s| - 1] == c then |s| else AfterLast(s[..|s| - 1], c)
  }

  lemma {:induction false} AfterLastAbsent(s: string, c: char)
    requires c !in s
    ensures AfterLast(s, c) == 0
  {
    if s != [] {
      assert s[|s| - 1] in s;
      assert forall x | x in s[..|s| - 1] :: x in s;
      AfterLastAbsent(s[..|s| - 1], c);
    }
  }

  predicate ValidPort(port: string) {
    AllDigits(port) && (port == [] || DecimalValue(port) <= 65535)
  }

  /** The path: everything before `?` or `#`. */
  function PathOf(t: string): string {
    t[..Span(t, InPath)]
  }

  /** The query: what lies between the first `?` of the path-and-after and the next `#`. */
  function QueryOf(t: string): Option<string> {
    var p := Span(t, InPath);
    if p < |t| && t[p] == '?' then
      var q := t[p + 1..];
      Some(q[..Span(q, NotHash)])
    else None
  }

  /** Parsing from the start of the authority (after the scheme and its slashes). */
  function ParseAuthority(scheme: string, special: bool, s: string): Option<Url> {
    var a := Span(s, InAuthority);
    var authority := s[..a];
    var hostAndPort := authority[AfterLast(authority, '@')..];
    var h := Span(hostAndPort, NotColon);
    var host := hostAndPort[..h];
    var port := if h < |hostAndPort| then hostAndPort[h + 1..] else [];
    if (special && host == []) || (exists c | c in host :: IsForbiddenHostChar(c)) || !ValidPort(port)
    then None
    else
      var path := PathOf(s[a..]);
      Some(Url(scheme,
               if special then AsciiLower(host) else host,
               if special && path == [] then "/" else path,
               QueryOf(s[a..])))
  }

  /** `new URL(input)`: `None` where the constructor throws. */
  function Parse(input: string): Option<Url> {
    var s := Preprocess(input);
    var n := Span(s, IsSchemeChar);
    if n == 0 || !IsAsciiLetter(s[0]) || n == |s| || s[n] != ':' then None
    else
      var scheme := AsciiLower(s[..n]);
      var rest := s[n + 1..];
      if scheme in SpecialSchemes then ParseAuthority(scheme, true, rest[Span(rest, IsSlash)..])
      else if StartsWith(rest, "//") then ParseAuthority(scheme, false, rest[2..])
      else Some(Url(scheme, "", PathOf(rest), QueryOf(rest)))
  }

  /** Form-urlencoded text with `+` read as a space. */
  function PlusToSpace(s: string): (r: string)
    ensures |r| == |s|
    ensures forall i :: 0 <= i < |s| ==> r[i] == if s[i] == '+' then ' ' else s[i]
  {
    seq(|s|, i requires 0 <= i < |s| => if s[i] == '+' then ' ' else s[i])
  }

  lemma PlusToSpaceUnchanged(s: string)
    requires '+' !in s
    ensures PlusToSpace(s) == s
  {
    forall i | 0 <= i < |s|
      ensures PlusToSpace(s)[i] == s[i]
    {
      assert s[i] in s;
    }
  }

  /** `URLSearchParams(query).get(name)`: the value of the first pair named `name`. */
  function GetParam(query: string, name: string): Option<string>
    decreases |query|
  {
    if query == [] then None
    else
      var k := Span(query, NotAmpersand);
      var pair := query[..k];
      var rest := if k < |query| then query[k + 1..] else [];
      var e := Span(pair, NotEquals);
      var key := PlusToSpace(pair[..e]);
      var value := if e < |pair| then PlusToSpace(pair[e + 1..]) else [];
      if pair != [] && key == name then Some(value) else GetParam(rest, name)
  }

  /** `url.searchParams.get(name)`. */
  function SearchParam(u: Url, name: string): Option<string> {
    match u.query
    case None => None
    case Some(q) => GetParam(q, name)
  }

  /** Without a `:` there is no scheme, so parsing fails. */
  lemma ParseNeedsColon(input: string)
    requires ':' !in input
    ensures Parse(input) == None
  {
    var s := Preprocess(input);
    var n := Span(s, IsSchemeChar);
    if n < |s| {
      assert s[n] in s;
    }
  }

  /** Input with no character at or below U+0020 is left alone by the preprocessing. */
  lemma PreprocessUnchanged(input: string)
    requires forall c | c in input :: c > ' '
    ensures Preprocess(input) == input
  {
    if input != [] {
      assert input[0] in input && input[|input| - 1] in input;
    }
    TrimUnchanged(input, IsC0ControlOrSpace);
    StripTabNewlineUnchanged(input);
  }

  /** Characters of a plain lower-case domain name. */
  predicate IsPlainHostChar(c: char) {
    ('a' <= c <= 'z') || IsDigit(c) || c == '-' || c == '.'
  }

  /** For a special scheme, a plain host followed by the path, query or fragment is read as that
      host, path and query. */
  lemma PlainAuthority(scheme: string, host: string, tail: string)
    requires host != [] && forall c | c in host :: IsPlainHostChar(c)
    requires tail == [] || tail[0] == '/' || tail[0] == '?' || tail[0] == '#'
    ensures ParseAuthority(scheme, true, host + tail)
      == Some(Url(scheme, host, if PathOf(tail) == [] then "/" else PathOf(tail), QueryOf(tail)))
  {
    PlainAuthoritySpan(host, tail);
    PlainHostParts(host);
    assert host[0..] == host && host[..|host|] == host;
  }

  /** The authority of a plain host followed by the path, query or fragment is the host. */
  lemma PlainAuthoritySpan(host: string, tail: string)
    requires forall c | c in host :: IsPlainHostChar(c)
    requires tail == [] || tail[0] == '/' || tail[0] == '?' || tail[0] == '#'
    ensures Span(host + tail, InAuthority) == |host|
    ensures (host + tail)[..|host|] == host && (host + tail)[|host|..] == tail
  {
    SpanAppend(host, tail, InAuthority);
    if tail != [] {
      SpanIs(tail, InAuthority, 0);
    }
  }

  /** A plain host has no credentials, no port, no forbidden character and no upper case. */
  lemma PlainHostParts(host: string)
    requires forall c | c in host :: IsPlainHostChar(c)
    ensures AfterLast(host, '@') == 0 && Span(host, NotColon) == |host|
    ensures forall c | c in host :: !IsForbiddenHostChar(c)
    ensures AsciiLower(host) == host
  {
    assert AfterLast(host, '@') == 0 by {
      AfterLastAbsent(host, '@');
    }
    assert Span(host, NotColon) == |host| by {
      SpanAll(host, NotColon);
    }
    assert AsciiLower(host) == host by {
      AsciiLowerUnchanged(host);
    }
  }

  /** The steps of reading `https://` + `rest`: nothing is stripped, the scheme is the five
      letters before the `:`, and the slashes that follow are skipped. */
  lemma HttpsUnstripped(rest: string, input: string)
    requires forall c | c in rest :: c > ' '
    requires input == "https://" + rest
    ensures Preprocess(input) == input
  {
    assert forall c | c in input :: c > ' ' by {
      forall c | c in input ensures c > ' ' {
        assert c in "https://" || c in rest;
      }
    }
    PreprocessUnchanged(input);
  }

  lemma HttpsSchemeSpan(rest: string, input: string)
    requires input == "https://" + rest
    ensures Span(input, IsSchemeChar) == 5
    ensures AsciiLower(input[..5]) == "https"
  {
    var afterScheme := "://" + rest;
    assert input == "https" + afterScheme;
    SpanAppend("https", afterScheme, IsSchemeChar);
    SpanIs(afterScheme, IsSchemeChar, 0);
    assert input[..5] == "https";
    AsciiLowerUnchanged("https");
  }

  lemma HttpsSlashes(rest: string, input: string)
    requires rest != [] && rest[0] != '/'
    requires input == "https://" + rest
    ensures input[6..][Span(input[6..], IsSlash)..] == rest
  {
    var slashes := input[6..];
    assert slashes == "//" + rest;
    SpanAppend("//", rest, IsSlash);
    SpanIs(rest, IsSlash, 0);
    assert slashes[2..] == rest;
  }

  /** `https:` followed by slashes and then `rest` is read as the special scheme `https` with its
      authority starting at `rest`. */
  lemma HttpsScheme(rest: string, input: string)
    requires forall c | c in rest :: c > ' '
    requires rest != [] && rest[0] != '/'
    requires input == "https://" + rest
    ensures Parse(input) == ParseAuthority("https", true, rest)
  {
    HttpsUnstripped(rest, input);
    HttpsSchemeSpan(rest, input);
    HttpsSlashes(rest, input);
    assert input[5] == ':' && IsAsciiLetter(input[0]);
    SpecialBranch(input, 5);
  }

  /** An input left alone by preprocessing, whose scheme is special, continues with its authority
      after the run of slashes. */
  lemma SpecialBranch(input: string, n: nat)
    requires Preprocess(input) == input
    requires Span(input, IsSchemeChar) == n && 0 < n < |input|
    requires IsAsciiLetter(input[0]) && input[n] == ':'
    requires AsciiLower(input[..n]) == "https"
    ensures Parse(input)
      == ParseAuthority("https", true, input[n + 1..][Span(input[n + 1..], IsSlash)..])
  {
    assert "https" in SpecialSchemes;
  }
}
