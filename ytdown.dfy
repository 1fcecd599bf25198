/** src/js/ytdown.js: the page script. A prefix test on the typed link enables the download
    button; clicking a format button makes it the only active one; a download request goes to
    `/downloadmp3` or `/downloadmp4` with the link as the `URL` query parameter. */
module YtDown {
  import opened Strings

  const Schemes: seq<string> := ["", "http://", "https://"]
  const WwwPrefixes: seq<string> := ["", "www."]
  const Targets: seq<string> := ["youtube.com/watch?v=", "youtube.com/shorts/", "youtu.be/"]

  /** `s` starts with the scheme part `a`, then the `www.` part `b`, then the target `c`. */
  predicate StartsWithParts(s: string, a: string, b: string, c: string) {
    StartsWith(s, a + b + c)
  }

  /** What the pattern accepts, stated declaratively: a string that starts with an optional
      `http://` or `https://`, then an optional `www.`, then one of the three targets, with
      anything after. Case matters. */
  predicate IsYouTubeLink(s: string) {
    exists a, b, c | a in Schemes && b in WwwPrefixes && c in Targets :: StartsWithParts(s, a, b, c)
  }

  /** The target alternatives of the pattern, tried in order. */
  predicate MatchTarget(s: string) {
    StartsWith(s, "youtube.com/watch?v=") || StartsWith(s, "youtube.com/shorts/") || StartsWith(s, "youtu.be/")
  }

  /** `(www\.)?` followed by the targets: with the group first, then without it. */
  predicate MatchWww(s: string) {
    (StartsWith(s, "www.") && MatchTarget(s[4..])) || MatchTarget(s)
  }

  /** `YT_REGEX.test(s)`: the anchored pattern as a backtracking matcher runs it. `https?` tries
      the `s`, then the optional group is skipped altogether. */
  predicate YtRegexTest(s: string) {
    (StartsWith(s, "https://") && MatchWww(s[8..]))
    || (StartsWith(s, "http://") && MatchWww(s[7..]))
    || MatchWww(s)
  }

  /** Starting with a concatenation is starting with its first part and then the rest. */
  lemma StartsWithConcat(s: string, a: string, r: string)
    ensures StartsWith(s, a + r) <==> StartsWith(s, a) && StartsWith(s[|a|..], r)
  {
    if StartsWith(s, a) && StartsWith(s[|a|..], r) {
      assert s[..|a + r|] == s[..|a|] + s[|a|..][..|r|];
    }
    if StartsWith(s, a + r) {
      assert s[..|a|] == (a + r)[..|a|] == a;
      assert s[|a|..][..|r|] == s[..|a + r|][|a|..] == r;
    }
  }

  lemma MatchTargetParts(t: string)
    ensures MatchTarget(t) <==> exists c | c in Targets :: StartsWith(t, c)
  {
  }

  lemma MatchWwwParts(u: string)
    ensures MatchWww(u) <==>
      exists b, c | b in WwwPrefixes && c in Targets :: StartsWith(u, b + c)
  {
    forall b, c | b in WwwPrefixes && c in Targets
      ensures StartsWith(u, b + c) <==> StartsWith(u, b) && StartsWith(u[|b|..], c)
    {
      StartsWithConcat(u, b, c);
    }
    assert [] + "www." == "www.";
    if MatchWww(u) {
      if StartsWith(u, "www.") && MatchTarget(u[4..]) {
        MatchTargetParts(u[4..]);
        var c :| c in Targets && StartsWith(u[4..], c);
        assert StartsWith(u, "www." + c);
      } else {
        MatchTargetParts(u);
        var c :| c in Targets && StartsWith(u, c);
        assert u[0..] == u;
        assert StartsWith(u, "" + c);
      }
    }
  }

  /** The matcher accepts exactly the declaratively described links. */
  lemma {:induction false} RegexMeansYouTubeLink(s: string)
    ensures YtRegexTest(s) <==> IsYouTubeLink(s)
  {
    if YtRegexTest(s) {
      MatchIsLink(s);
    }
    if IsYouTubeLink(s) {
      var a, b, c :| a in Schemes && b in WwwPrefixes && c in Targets && StartsWithParts(s, a, b, c);
      LinkMatches(s, a, b, c);
    }
  }

  /** Each way the matcher succeeds picks a scheme part, a `www.` part and a target. */
  lemma MatchIsLink(s: string)
    requires YtRegexTest(s)
    ensures IsYouTubeLink(s)
  {
    if StartsWith(s, "https://") && MatchWww(s[8..]) {
      SchemeThenWww(s, "https://");
    } else if StartsWith(s, "http://") && MatchWww(s[7..]) {
      SchemeThenWww(s, "http://");
    } else {
      assert s[0..] == s && StartsWith(s, "");
      SchemeThenWww(s, "");
    }
  }

  /** A scheme part followed by what `(www\.)?` and the targets accept is a link. */
  lemma SchemeThenWww(s: string, a: string)
    requires a in Schemes && StartsWith(s, a) && MatchWww(s[|a|..])
    ensures IsYouTubeLink(s)
  {
    var b, c := WwwParts(s[|a|..]);
    PartsLink(s, a, b, c);
  }

  /** Starting with a scheme part and then a `www.` part and a target is being a link. */
  lemma PartsLink(s: string, a: string, b: string, c: string)
    requires a in Schemes && b in WwwPrefixes && c in Targets
    requires StartsWith(s, a) && StartsWith(s[|a|..], b + c)
    ensures IsYouTubeLink(s)
  {
    PartsJoin(s, a, b, c);
  }

  /** Starting with the first part and then the other two is starting with the three parts. */
  lemma PartsJoin(s: string, a: string, b: string, c: string)
    requires StartsWith(s, a) && StartsWith(s[|a|..], b + c)
    ensures StartsWithParts(s, a, b, c)
  {
    assert a + b + c == a + (b + c);
    StartsWithConcat(s, a, b + c);
  }

  /** The `www.` part and the target that `(www\.)?` and the targets accepted. */
  lemma WwwParts(u: string) returns (b: string, c: string)
    requires MatchWww(u)
    ensures b in WwwPrefixes && c in Targets && StartsWith(u, b + c)
  {
    MatchWwwParts(u);
    b, c :| b in WwwPrefixes && c in Targets && StartsWith(u, b + c);
  }

  /** A link with scheme part `a`, `www.` part `b` and target `c` is accepted by the matcher. */
  lemma LinkMatches(s: string, a: string, b: string, c: string)
    requires a in Schemes && b in WwwPrefixes && c in Targets && StartsWithParts(s, a, b, c)
    ensures YtRegexTest(s)
  {
    PartsSplit(s, a, b, c);
    WwwThenTarget(s[|a|..], b, c);
    SchemePartMatches(s, a);
  }

  /** Starting with the three parts is starting with the first and then the other two. */
  lemma PartsSplit(s: string, a: string, b: string, c: string)
    requires StartsWithParts(s, a, b, c)
    ensures StartsWith(s, a) && StartsWith(s[|a|..], b + c)
  {
    assert a + b + c == a + (b + c);
    StartsWithConcat(s, a, b + c);
  }

  /** A scheme part followed by what `(www\.)?` and the targets accept is accepted. */
  lemma SchemePartMatches(s: string, a: string)
    requires a in Schemes && StartsWith(s, a) && MatchWww(s[|a|..])
    ensures YtRegexTest(s)
  {
    if a == [] {
      assert s[0..] == s;
    } else if a != "http://" {
      assert a == "https://";
    }
  }

  /** Text starting with a `www.` part and a target is accepted by `(www\.)?` and the targets. */
  lemma WwwThenTarget(u: string, b: string, c: string)
    requires b in WwwPrefixes && c in Targets && StartsWith(u, b + c)
    ensures MatchWww(u)
  {
    StartsWithConcat(u, b, c);
    if b == [] {
      assert u[0..] == u;
    }
  }

  /** A first character that differs rules a prefix out. */
  lemma FirstCharDiffers(s: string, p: string)
    requires p != [] && (s == [] || s[0] != p[0])
    ensures !StartsWith(s, p)
  {
    if |p| <= |s| {
      assert s[..|p|][0] == s[0];
    }
  }

  /** Links the page accepts and refuses: the watch form with scheme and `www.`, and a host the
      pattern does not list. */
  lemma WatchLinkAccepted(rest: string, s: string)
    requires s == "https://" + "www." + "youtube.com/watch?v=" + rest
    ensures YtRegexTest(s)
  {
    var a, b, c := "https://", "www.", "youtube.com/watch?v=";
    assert s == (a + b + c) + rest;
    assert s[..|a + b + c|] == a + b + c;
    assert a == Schemes[2] && b == WwwPrefixes[1] && c == Targets[0];
    assert StartsWithParts(s, a, b, c);
    RegexMeansYouTubeLink(s);
  }

  lemma MobileHostRefused(rest: string, s: string)
    requires s == "https://m.youtube.com/watch?v=" + rest
    ensures !YtRegexTest(s)
  {
    assert s[0] == 'h' && s[4] == 's' && s[8] == 'm';
    FirstCharDiffers(s, "www.");
    FirstCharDiffers(s, "youtube.com/watch?v=");
    FirstCharDiffers(s, "youtube.com/shorts/");
    FirstCharDiffers(s, "youtu.be/");
    FirstCharDiffers(s[4..], "://");
    assert !StartsWith(s, "http://") by {
      assert "http://" == "http" + "://";
      StartsWithConcat(s, "http", "://");
    }
    var u := s[8..];
    assert u[0] == 'm';
    FirstCharDiffers(u, "www.");
    FirstCharDiffers(u, "youtube.com/watch?v=");
    FirstCharDiffers(u, "youtube.com/shorts/");
    FirstCharDiffers(u, "youtu.be/");
  }

  /** The endpoint chosen for a format. */
  function Endpoint(format: string): (e: string)
    ensures e == "/downloadmp3" <==> format == "mp3"
    ensures e == "/downloadmp3" || e == "/downloadmp4"
  {
    if format == "mp3" then "/downloadmp3" else "/downloadmp4"
  }

  /** The request address: the endpoint, then `?URL=` and the encoded link. */
  function DownloadUrl(format: string, link: string, encode: string -> string): string {
    Endpoint(format) + "?URL=" + encode(link)
  }

  /** Reading a request address back: the path before the first `?`, and what follows `?URL=`. */
  function ParseRequest(target: string): (string, Wrappers.Option<string>) {
    var n := Span(target, c => c != '?');
    var rest := target[n..];
    (target[..n], if StartsWith(rest, "?URL=") then Wrappers.Some(rest[5..]) else Wrappers.None)
  }

  /** A path without `?`, then `?URL=` and a value, reads back as that path and that value. */
  lemma ParseRequestOf(path: string, value: string)
    requires forall c | c in path :: c != '?'
    ensures ParseRequest(path + ("?URL=" + value)) == (path, Wrappers.Some(value))
  {
    var query := "?URL=" + value;
    var t := path + query;
    assert query == ['?'] + ("URL=" + value);
    SpanAppend(path, query, c => c != '?');
    SpanStops('?', "URL=" + value, c => c != '?');
    assert t[..|path|] == path && t[|path|..] == query;
  }

  /** A request address gives back its endpoint and the encoded link, whatever the encoding
      produced. */
  lemma DownloadUrlRoundTrip(format: string, link: string, encode: string -> string)
    ensures ParseRequest(DownloadUrl(format, link, encode))
      == (Endpoint(format), Wrappers.Some(encode(link)))
  {
    var e := Endpoint(format);
    assert DownloadUrl(format, link, encode) == e + ("?URL=" + encode(link));
    assert forall c | c in e :: c != '?';
    ParseRequestOf(e, encode(link));
  }

  const InvalidLinkMessage := "Please enter a valid YouTube URL."

  /** The page's state: the format buttons (their `data-format` values and which carry the
      `active` class), the current format, the text field, the button's `disabled` flag, the error
      line, and the download requests issued so far. */
  class Page {
    const formats: seq<string>
    const active: array<bool>
    var currentFormat: string
    var input: string
    var downloadDisabled: bool
    var errorText: string
    var errorHidden: bool
    var requests: seq<string>

    predicate Valid()
      reads this
    {
      active.Length == |formats|
    }

    /** The page as loaded: the buttons as the markup has them, and the format `mp4`. */
    constructor(formats: seq<string>, initiallyActive: seq<bool>, disabled: bool)
      requires |initiallyActive| == |formats|
      ensures Valid() && fresh(active)
      ensures this.formats == formats && active[..] == initiallyActive
      ensures currentFormat == "mp4" && input == [] && downloadDisabled == disabled
      ensures errorHidden && requests == []
    {
      this.formats := formats;
      active := new bool[|formats|](i requires 0 <= i < |formats| => initiallyActive[i]);
      currentFormat := "mp4";
      input := [];
      downloadDisabled := disabled;
      errorText := [];
      errorHidden := true;
      requests := [];
    }

    /** A click on format button `k`: every button loses `active`, then `k` gains it, and the
        current format becomes its `data-format`. */
    method SelectFormat(k: nat)
      requires Valid() && k < active.Length
      modifies this, active
      ensures Valid()
      ensures forall i | 0 <= i < active.Length :: active[i] <==> i == k
      ensures currentFormat == formats[k]
      ensures input == old(input) && downloadDisabled == old(downloadDisabled)
      ensures errorText == old(errorText) && errorHidden == old(errorHidden) && requests == old(requests)
    {
      for i := 0 to active.Length
        invariant forall j | 0 <= j < i :: !active[j]
        invariant unchanged(this)
      {
        active[i] := false;
      }
      active[k] := true;
      currentFormat := formats[k];
    }

    /** The text field changes: the button is disabled exactly when the trimmed text is not a
        YouTube link, and a valid link hides the error line. */
    method OnInput(value: string)
      modifies this
      ensures input == value
      ensures downloadDisabled <==> !IsYouTubeLink(JsTrim(value))
      ensures errorHidden == (IsYouTubeLink(JsTrim(value)) || old(errorHidden))
      ensures errorText == old(errorText) && currentFormat == old(currentFormat) && requests == old(requests)
    {
      input := value;
      var valid := YtRegexTest(JsTrim(value));
      RegexMeansYouTubeLink(JsTrim(value));
      downloadDisabled := !valid;
      if valid {
        errorHidden := true;
      }
    }

    /** `startDownload`: an invalid trimmed link shows the message and requests nothing; a valid
        one hides the error and requests the address for the current format. */
    method StartDownload(encode: string -> string)
      modifies this
      ensures var link := JsTrim(input);
        if IsYouTubeLink(link) then
          errorHidden && errorText == old(errorText)
          && requests == old(requests) + [DownloadUrl(currentFormat, link, encode)]
        else
          !errorHidden && errorText == InvalidLinkMessage && requests == old(requests)
      ensures input == old(input) && currentFormat == old(currentFormat)
      ensures downloadDisabled == old(downloadDisabled)
    {
      var link := JsTrim(input);
      var valid := YtRegexTest(link);
      assert valid == IsYouTubeLink(link) by { RegexMeansYouTubeLink(link); }
      if !valid {
        errorText := InvalidLinkMessage;
        errorHidden := false;
        return;
      }
      errorHidden := true;
      requests := requests + [DownloadUrl(currentFormat, link, encode)];
    }

    /** A key press in the text field: Enter starts a download only while the button is
        enabled. */
    method OnKeydown(key: string, encode: string -> string)
      modifies this
      ensures key != "Enter" || old(downloadDisabled) ==>
        requests == old(requests) && errorHidden == old(errorHidden) && errorText == old(errorText)
      ensures input == old(input) && currentFormat == old(currentFormat)
      ensures downloadDisabled == old(downloadDisabled)
      ensures key == "Enter" && !old(downloadDisabled) ==>
        var link := JsTrim(input);
        if IsYouTubeLink(link) then
          errorHidden && errorText == old(errorText)
          && requests == old(requests) + [DownloadUrl(currentFormat, link, encode)]
        else
          !errorHidden && errorText == InvalidLinkMessage && requests == old(requests)
    {
      if key == "Enter" && !downloadDisabled {
        StartDownload(encode);
      }
    }
  }
}
