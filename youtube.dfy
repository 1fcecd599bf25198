/** lib/youtube.js: the shared youtubei.js client with a five-minute freshness window, its reset,
    and the extraction of a video id from what the user pasted. */
module YouTube {
  import opened Wrappers
  import opened Strings
  import opened WhatwgUrl
  import opened Innertube

  /** Age, in milliseconds, beyond which the cached client is rebuilt. */
  const MAX_AGE_MS: int := 5 * 60 * 1000

  /** `innertube && !(now - createdAt > MAX_AGE_MS)`: the cached client may be returned as is. */
  predicate Reusable(cached: Option<Client>, createdAt: int, now: int) {
    cached.Some? && !(now - createdAt > MAX_AGE_MS)
  }

  /** The module-level pair `innertube`, `createdAt`. `builds` counts the calls to
      `Innertube.create`. */
  class ClientCache {
    var innertube: Option<Client>
    var createdAt: int
    ghost var builds: nat

    /** The state when the module is loaded. */
    constructor ()
      ensures innertube == None && createdAt == 0 && builds == 0
    {
      innertube := None;
      createdAt := 0;
      builds := 0;
    }

    /** `getClient()` at clock reading `now`; `create` is what `Innertube.create` would give. The
        cached client comes back without a rebuild exactly when it is reusable; a rebuild stamps
        the clock reading taken at the start of the call; a failed rebuild throws and leaves the
        cache as it was. */
    method GetClient(now: int, create: Result<Client, string>) returns (client: Result<Client, string>)
      modifies this
      ensures old(Reusable(innertube, createdAt, now)) ==>
        client == Success(old(innertube).value) && innertube == old(innertube)
        && createdAt == old(createdAt) && builds == old(builds)
      ensures !old(Reusable(innertube, createdAt, now)) ==>
        client == create && builds == old(builds) + 1
        && (create.Success? ==> innertube == Some(create.value) && createdAt == now)
        && (create.Failure? ==> innertube == old(innertube) && createdAt == old(createdAt))
      ensures client.Success? ==> innertube == Some(client.value)
    {
      if !Reusable(innertube, createdAt, now) {
        builds := builds + 1;
        match create
        case Failure(e) =>
          return Failure(e);
        case Success(c) =>
          innertube := Some(c);
          createdAt := now;
      }
      client := Success(innertube.value);
    }

    /** `resetClient()`: nothing is reusable afterwards, so the next `GetClient` rebuilds. */
    method ResetClient()
      modifies this
      ensures innertube == None && createdAt == 0 && builds == old(builds)
      ensures forall now :: !Reusable(innertube, createdAt, now)
    {
      innertube := None;
      createdAt := 0;
    }
  }

  /** The window is closed: a client exactly `MAX_AGE_MS` old is still reused, one a millisecond
      older is not. */
  lemma FreshnessBoundary(c: Client, createdAt: int)
    ensures Reusable(Some(c), createdAt, createdAt + MAX_AGE_MS)
    ensures !Reusable(Some(c), createdAt, createdAt + MAX_AGE_MS + 1)
  {
  }

  /** `extractVideoId(url)`: the path after its first character for a host containing
      `youtu.be`, otherwise a non-empty `v` query value, otherwise the input itself; the input also
      when it does not parse as a URL. */
  function ExtractVideoId(url: string): string {
    match Parse(url)
    case None => url
    case Some(u) =>
      if Contains(u.hostname, "youtu.be") then DropFirst(u.pathname)
      else
        match SearchParam(u, "v")
        case Some(v) => if v != [] then v else url
        case None => url
  }

  /** Characters of YouTube video ids. */
  predicate IsIdChar(c: char) {
    IsAsciiLetter(c) || IsDigit(c) || c == '-' || c == '_'
  }

  /** An `https` URL with a plain host parses into that host, the path and query of the rest. */
  lemma ParseHttps(host: string, tail: string)
    requires host != [] && forall c | c in host :: IsPlainHostChar(c)
    requires forall c | c in tail :: c > ' '
    requires tail == [] || tail[0] == '/' || tail[0] == '?' || tail[0] == '#'
    ensures Parse("https://" + host + tail)
      == Some(Url("https", host, if PathOf(tail) == [] then "/" else PathOf(tail), QueryOf(tail)))
  {
    assert forall c | c in host + tail :: c > ' ' by {
      forall c | c in host + tail ensures c > ' ' {
        assert c in host || c in tail;
      }
    }
    assert host[0] in host;
    assert "https://" + host + tail == "https://" + (host + tail);
    HttpsScheme(host + tail, "https://" + host + tail);
    PlainAuthority("https", host, tail);
  }

  /** `https://youtu.be/<id>` yields `<id>`. */
  lemma ShortLinkId(id: string)
    requires forall c | c in id :: IsIdChar(c)
    ensures ExtractVideoId("https://youtu.be/" + id) == id
  {
    var tail := "/" + id;
    assert "https://youtu.be/" + id == "https://" + "youtu.be" + tail;
    ShortTail(id, tail);
    ParseHttps("youtu.be", tail);
    assert StartsWith("youtu.be", "youtu.be");
  }

  /** The path of a short link is all of it, and it holds no space or control character. */
  lemma ShortTail(id: string, tail: string)
    requires forall c | c in id :: IsIdChar(c)
    requires tail == "/" + id
    ensures forall c | c in tail :: c > ' '
    ensures PathOf(tail) == tail
  {
    forall c | c in tail ensures c > ' ' && InPath(c) {
      assert c in "/" || c in id;
    }
    SpanAll(tail, InPath);
  }

  /** The path of `/watch?v=<id>...` is `/watch`. */
  lemma WatchPath(id: string, more: string, tail: string)
    requires tail == "/watch?v=" + id + more
    ensures PathOf(tail) == "/watch"
  {
    var afterPath := "?v=" + id + more;
    assert tail == "/watch" + afterPath;
    SpanAppend("/watch", afterPath, InPath);
    SpanIs(afterPath, InPath, 0);
  }

  /** The query of `/watch?v=<id><more>` is `v=<id>` followed by nothing or by further pairs. */
  lemma WatchQuery(id: string, more: string, tail: string)
    requires forall c | c in id :: IsIdChar(c)
    requires more == [] || more[0] == '&' || more[0] == '#'
    requires tail == "/watch?v=" + id + more
    ensures exists m :: QueryOf(tail) == Some("v=" + id + m) && (m == [] || m[0] == '&')
  {
    var pair := "v=" + id;
    var q := pair + more;
    WatchQueryStart(id, more, tail);
    var m := more[..Span(more, NotHash)];
    assert q[..Span(q, NotHash)] == pair + m by {
      forall c | c in pair ensures NotHash(c) {
        assert c in "v=" || c in id;
      }
      SpanAppend(pair, more, NotHash);
    }
    if more != [] && more[0] == '#' {
      SpanIs(more, NotHash, 0);
    }
  }

  /** The query of a watch link starts right after `/watch?`. */
  lemma WatchQueryStart(id: string, more: string, tail: string)
    requires tail == "/watch?v=" + id + more
    ensures var q := "v=" + id + more;
      Span(tail, InPath) == 6 && QueryOf(tail) == Some(q[..Span(q, NotHash)])
  {
    WatchPath(id, more, tail);
    assert tail[6] == '?' && tail[7..] == "v=" + id + more;
  }

  /** A query starting with the pair `v=<id>` gives `<id>` for `v`. */
  lemma FirstPairV(id: string, m: string, query: string)
    requires forall c | c in id :: IsIdChar(c)
    requires m == [] || m[0] == '&'
    requires query == "v=" + id + m
    ensures GetParam(query, "v") == Some(id)
  {
    var pair := "v=" + id;
    assert Span(query, NotAmpersand) == |pair| by {
      forall c | c in pair ensures NotAmpersand(c) {
        assert c in "v=" || c in id;
      }
      SpanAppend(pair, m, NotAmpersand);
      if m != [] {
        SpanIs(m, NotAmpersand, 0);
      }
    }
    assert query[..|pair|] == pair;
    assert Span(pair, NotEquals) == 1 by {
      assert pair == "v" + ("=" + id);
      SpanAppend("v", "=" + id, NotEquals);
      SpanIs("=" + id, NotEquals, 0);
    }
    assert pair[..1] == "v" && pair[2..] == id;
    assert PlusToSpace("v") == "v" by {
      PlusToSpaceUnchanged("v");
    }
    assert PlusToSpace(id) == id by {
      PlusToSpaceUnchanged(id);
    }
  }

  /** `https://<host>/watch?v=<id>` followed by nothing, by further parameters or by a fragment
      yields `<id>`, for any host not containing `youtu.be`. */
  lemma WatchLinkId(host: string, id: string, more: string, url: string)
    requires host != [] && forall c | c in host :: IsPlainHostChar(c)
    requires !Contains(host, "youtu.be")
    requires id != [] && forall c | c in id :: IsIdChar(c)
    requires forall c | c in more :: c > ' '
    requires more == [] || more[0] == '&' || more[0] == '#'
    requires url == "https://" + host + "/watch?v=" + id + more
    ensures ExtractVideoId(url) == id
  {
    var u := WatchLinkParsed(host, id, more, url);
    ParsedId(url, u, id);
  }

  /** A watch link parses into its host, `/watch` and a query whose `v` value is the id. */
  lemma WatchLinkParsed(host: string, id: string, more: string, url: string) returns (u: Url)
    requires host != [] && forall c | c in host :: IsPlainHostChar(c)
    requires forall c | c in id :: IsIdChar(c)
    requires forall c | c in more :: c > ' '
    requires more == [] || more[0] == '&' || more[0] == '#'
    requires url == "https://" + host + "/watch?v=" + id + more
    ensures Parse(url) == Some(u) && u.hostname == host && SearchParam(u, "v") == Some(id)
  {
    var tail := "/watch?v=" + id + more;
    assert url == "https://" + host + tail;
    WatchTailPrintable(id, more, tail);
    WatchPath(id, more, tail);
    var q := WatchVideoParam(id, more, tail);
    u := Url("https", host, "/watch", Some(q));
    WatchUrlParsed(host, tail, q);
  }

  /** The query of a watch link, whose `v` value is the id. */
  lemma WatchVideoParam(id: string, more: string, tail: string) returns (q: string)
    requires forall c | c in id :: IsIdChar(c)
    requires more == [] || more[0] == '&' || more[0] == '#'
    requires tail == "/watch?v=" + id + more
    ensures QueryOf(tail) == Some(q) && GetParam(q, "v") == Some(id)
  {
    WatchQuery(id, more, tail);
    var m :| QueryOf(tail) == Some("v=" + id + m) && (m == [] || m[0] == '&');
    q := "v=" + id + m;
    FirstPairV(id, m, q);
  }

  /** An `https` link with a plain host and a `/watch` path parses into that host, `/watch` and
      the query of the rest. */
  lemma WatchUrlParsed(host: string, tail: string, q: string)
    requires host != [] && forall c | c in host :: IsPlainHostChar(c)
    requires forall c | c in tail :: c > ' '
    requires tail != [] && tail[0] == '/'
    requires PathOf(tail) == "/watch" && QueryOf(tail) == Some(q)
    ensures Parse("https://" + host + tail) == Some(Url("https", host, "/watch", Some(q)))
  {
    ParseHttps(host, tail);
  }

  /** A parsed URL whose host does not contain `youtu.be` gives its non-empty `v` value. */
  lemma ParsedId(url: string, u: Url, id: string)
    requires Parse(url) == Some(u) && !Contains(u.hostname, "youtu.be")
    requires id != [] && SearchParam(u, "v") == Some(id)
    ensures ExtractVideoId(url) == id
  {
  }

  /** A watch link's path and query hold no space or control character. */
  lemma WatchTailPrintable(id: string, more: string, tail: string)
    requires forall c | c in id :: IsIdChar(c)
    requires forall c | c in more :: c > ' '
    requires tail == "/watch?v=" + id + more
    ensures forall c | c in tail :: c > ' '
  {
    forall c | c in tail ensures c > ' ' {
      assert c in "/watch?v=" + id || c in more;
      if c in "/watch?v=" + id {
        assert c in "/watch?v=" || c in id;
      }
    }
  }

  /** Input that cannot be a URL (a bare id, say) is its own id. */
  lemma BareIdUnchanged(s: string)
    requires ':' !in s
    ensures ExtractVideoId(s) == s
  {
    ParseNeedsColon(s);
  }

  /** A URL whose host does not contain `youtu.be` and whose `v` parameter is missing or empty
      gives the input back unchanged. */
  lemma NoVideoParameterUnchanged(host: string, tail: string)
    requires host != [] && forall c | c in host :: IsPlainHostChar(c)
    requires !Contains(host, "youtu.be")
    requires forall c | c in tail :: c > ' '
    requires tail == [] || tail[0] == '/' || tail[0] == '?' || tail[0] == '#'
    requires QueryOf(tail).None? || GetParam(QueryOf(tail).value, "v") in {None, Some([])}
    ensures ExtractVideoId("https://" + host + tail) == "https://" + host + tail
  {
    ParseHttps(host, tail);
  }

  /** The host of the usual watch links does not contain `youtu.be`. */
  lemma WwwHost(host: string)
    requires host == "www.youtube.com"
    ensures host != [] && forall c | c in host :: IsPlainHostChar(c)
    ensures !Contains(host, "youtu.be")
  {
    NotContainsPair(host, "youtu.be", 5);
  }

  lemma ShortExample(short: string)
    requires short == "https://youtu.be/abc"
    ensures ExtractVideoId(short) == "abc"
  {
    assert short == "https://youtu.be/" + "abc";
    assert forall c | c in "abc" :: IsIdChar(c) by {
      forall c | c in "abc" ensures IsIdChar(c) {
        assert c == 'a' || c == 'b' || c == 'c';
      }
    }
    ShortLinkId("abc");
  }

  lemma WatchExample(watch: string, host: string, id: string, more: string)
    requires watch == "https://www.youtube.com/watch?v=dQw4w9WgXcQ&t=42"
    requires host == "www.youtube.com" && id == "dQw4w9WgXcQ" && more == "&t=42"
    ensures ExtractVideoId(watch) == id
  {
    WwwHost(host);
    WatchId(id);
    WatchMore(more);
    WatchSplit(watch, host, id, more);
    WatchLinkId(host, id, more, watch);
  }

  lemma WatchId(id: string)
    requires id == "dQw4w9WgXcQ"
    ensures id != [] && forall c | c in id :: IsIdChar(c)
  {
  }

  lemma WatchMore(more: string)
    requires more == "&t=42"
    ensures forall c | c in more :: c > ' '
    ensures more == [] || more[0] == '&' || more[0] == '#'
  {
  }

  lemma WatchSplit(watch: string, host: string, id: string, more: string)
    requires watch == "https://www.youtube.com/watch?v=dQw4w9WgXcQ&t=42"
    requires host == "www.youtube.com" && id == "dQw4w9WgXcQ" && more == "&t=42"
    ensures watch == "https://" + host + "/watch?v=" + id + more
  {
  }
}
