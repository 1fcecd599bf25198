/** Title sanitisation, written the same way in every handler:
    `(title || fallback).replace(/[|\\/<>:"?*]/g, '')`. */
module Title {
  import opened Wrappers

  /** The characters the replacement removes. */
  predicate IsStripped(c: char) {
    c == '|' || c == '\\' || c == '/' || c == '<' || c == '>' || c == ':' || c == '"' || c == '?'
    || c == '*'
  }

  predicate IsClean(t: string) {
    forall c | c in t :: !IsStripped(c)
  }

  /** The title with every stripped character removed. */
  function Sanitize(t: string): (r: string)
    ensures IsClean(r)
  {
    if t == [] then []
    else (if IsStripped(t[0]) then [] else [t[0]]) + Sanitize(t[1..])
  }

  /** Sanitising works piece by piece: the kept characters of `a + b` are those of `a`, then
      those of `b`, so order is preserved. */
  lemma {:induction false} SanitizeAppend(a: string, b: string)
    ensures Sanitize(a + b) == Sanitize(a) + Sanitize(b)
  {
    if a == [] {
      assert a + b == b;
    } else {
      assert (a + b)[0] == a[0];
      assert (a + b)[1..] == a[1..] + b;
      SanitizeAppend(a[1..], b);
    }
  }

  /** A single character is dropped exactly when it is one of the stripped ones. */
  lemma SanitizeChar(c: char)
    ensures Sanitize([c]) == if IsStripped(c) then [] else [c]
  {
  }

  /** Nothing but the stripped characters is removed: a clean title comes back unchanged. */
  lemma {:induction false} SanitizeKeepsClean(t: string)
    requires IsClean(t)
    ensures Sanitize(t) == t
  {
    if t != [] {
      assert t[0] in t;
      assert forall c | c in t[1..] :: c in t;
      SanitizeKeepsClean(t[1..]);
    }
  }

  lemma SanitizeIdempotent(t: string)
    ensures Sanitize(Sanitize(t)) == Sanitize(t)
  {
    SanitizeKeepsClean(Sanitize(t));
  }

  /** A clean piece followed by one stripped character keeps the piece and drops the character. */
  lemma SanitizeSkip(a: string, c: char, b: string)
    requires IsClean(a) && IsStripped(c)
    ensures Sanitize(a + [c] + b) == a + Sanitize(b)
  {
    SanitizeKeepsClean(a);
    SanitizeChar(c);
    SanitizeAppend(a, [c]);
    assert a + [] == a;
    SanitizeAppend(a + [c], b);
  }

  /** Three clean pieces, each followed by one stripped character, sanitise to the pieces joined. */
  lemma SanitizeThreeSkips(a: string, x: char, b: string, y: char, c: string, z: char)
    requires IsClean(a) && IsClean(b) && IsClean(c)
    requires IsStripped(x) && IsStripped(y) && IsStripped(z)
    ensures Sanitize(a + [x] + (b + [y] + (c + [z] + []))) == a + (b + c)
  {
    SanitizeSkip(c, z, []);
    SanitizeSkip(b, y, c + [z] + []);
    SanitizeSkip(a, x, b + [y] + (c + [z] + []));
    assert c + [] == c;
  }

  /** The title `My:Clip/2024?` becomes `MyClip2024`. */
  lemma SanitizeExample(t: string)
    requires t == "My:Clip/2024?"
    ensures Sanitize(t) == "MyClip2024"
  {
    var a, b, c := "My", "Clip", "2024";
    assert t == a + [':'] + (b + ['/'] + (c + ['?'] + []));
    assert a + (b + c) == "MyClip2024";
    SanitizeThreeSkips(a, ':', b, '/', c, '?');
  }

  /** `(title || fallback)` sanitised; a missing or empty title takes the fallback. */
  function Derive(title: Option<string>, fallback: string): string {
    Sanitize(if title.None? || title.value == [] then fallback else title.value)
  }

  /** A missing or empty title gives the (clean) fallback itself. */
  lemma DeriveFallback(title: Option<string>, fallback: string)
    requires title.None? || title.value == []
    requires IsClean(fallback)
    ensures Derive(title, fallback) == fallback
  {
    SanitizeKeepsClean(fallback);
  }

  /** Nothing is kept of a text made only of stripped characters. */
  lemma {:induction false} SanitizeAllStripped(t: string)
    requires forall c | c in t :: IsStripped(c)
    ensures Sanitize(t) == []
  {
    if t != [] {
      assert t[0] in t;
      assert forall c | c in t[1..] :: c in t;
      SanitizeAllStripped(t[1..]);
    }
  }

  /** A title made only of stripped characters is not empty, so the fallback is not used and the
      result is empty. */
  lemma DeriveAllStripped(title: string, fallback: string)
    requires title != [] && forall c | c in title :: IsStripped(c)
    ensures Derive(Some(title), fallback) == ""
  {
    SanitizeAllStripped(title);
  }
}
