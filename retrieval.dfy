/** The fetch-with-one-retry that every download handler performs: get the shared client, ask for
    the video's basic info, derive the file title, start the `video+audio` download; on any
    failure, reset the shared client and try exactly once more. Then the reply: the stream with
    its attachment headers, or a fixed 500 message that hides the cause. */
module Retrieval {
  import opened Wrappers
  import opened Web
  import opened Innertube
  import opened Title
  import opened YouTube

  /** What one successful attempt yields: the sanitised title and the media stream. */
  datatype Fetched = Fetched(title: string, stream: Stream)

  /** One attempt: the clock reading `getClient` takes, and how the library answers. */
  datatype Attempt = Attempt(now: int, net: Network)

  const DownloadKind := "video+audio"

  /** `quality === 'high' ? 'best' : 'bestefficiency'`. */
  function QualityTier(quality: Option<string>): string {
    if quality == Some("high") then "best" else "bestefficiency"
  }

  /** Only the exact string `high` selects the best tier; anything else, a missing parameter
      included, falls back to the efficient one. */
  lemma QualityTierChoice(quality: Option<string>)
    ensures QualityTier(quality) == "best" <==> quality == Some("high")
    ensures QualityTier(quality) == "best" || QualityTier(quality) == "bestefficiency"
  {
  }

  /** An attempt succeeds when a client is at hand (cached and fresh, or built now), the basic info
      arrives and the download starts. */
  predicate AttemptOk(reuse: bool, net: Network) {
    (reuse || net.create.Success?) && net.basicInfo.Success? && net.download.Success?
  }

  /** One attempt as a value: its outcome and the library calls it makes, given whether the cached
      client is reusable when it starts. The first failing step's error is the outcome. */
  function Attempted(reuse: bool, net: Network, videoId: string, fallback: string, tier: string)
    : (Result<Fetched, string>, seq<Call>)
  {
    var built := if reuse then [] else [Create];
    if !reuse && net.create.Failure? then (Failure(net.create.error), built)
    else
      var asked := built + [BasicInfo(videoId)];
      match net.basicInfo
      case Failure(e) => (Failure(e), asked)
      case Success(info) =>
        var calls := asked + [Download(DownloadOptions(DownloadKind, tier))];
        match net.download
        case Failure(e) => (Failure(e), calls)
        case Success(stream) => (Success(Fetched(Derive(info.title, fallback), stream)), calls)
  }

  /** The whole retrieval as a value: a failed first attempt is followed by a reset and a second
      attempt, which then never finds a reusable client. */
  function Retried(reuse: bool, first: Network, second: Network, videoId: string, fallback: string,
                   tier: string): (Result<Fetched, string>, seq<Call>)
  {
    var (r1, c1) := Attempted(reuse, first, videoId, fallback, tier);
    if r1.Success? then (r1, c1)
    else
      var (r2, c2) := Attempted(false, second, videoId, fallback, tier);
      (r2, c1 + [ResetClient] + c2)
  }

  /** An attempt succeeds exactly when `AttemptOk` says so, and then carries the sanitised title
      (or sanitised fallback) and the download stream. */
  lemma AttemptOutcome(reuse: bool, net: Network, videoId: string, fallback: string, tier: string)
    ensures Attempted(reuse, net, videoId, fallback, tier).0.Success? <==> AttemptOk(reuse, net)
    ensures AttemptOk(reuse, net) ==>
      Attempted(reuse, net, videoId, fallback, tier).0
        == Success(Fetched(Derive(net.basicInfo.value.title, fallback), net.download.value))
    ensures Attempted(reuse, net, videoId, fallback, tier).0.Success? ==>
      IsClean(Attempted(reuse, net, videoId, fallback, tier).0.value.title)
  {
  }

  /** Number of calls satisfying `P`. */
  function Count(calls: seq<Call>, P: Call -> bool): (n: nat)
    ensures n <= |calls|
  {
    if calls == [] then 0 else (if P(calls[0]) then 1 else 0) + Count(calls[1..], P)
  }

  lemma {:induction false} CountAppend(a: seq<Call>, b: seq<Call>, P: Call -> bool)
    ensures Count(a + b, P) == Count(a, P) + Count(b, P)
  {
    if a == [] {
      assert a + b == b;
    } else {
      assert (a + b)[0] == a[0];
      assert (a + b)[1..] == a[1..] + b;
      CountAppend(a[1..], b, P);
    }
  }

  predicate IsInfoRequest(c: Call) { c.BasicInfo? }

  predicate IsReset(c: Call) { c.ResetClient? }

  predicate IsCreate(c: Call) { c.Create? }

  /** Shape of one attempt's calls: at most one build (never when the client is reused), at most
      one basic-info request for the given id, downloads only after it and only with the
      `video+audio` kind and the chosen tier, and no reset. */
  lemma AttemptCalls(reuse: bool, net: Network, videoId: string, fallback: string, tier: string)
    ensures var calls := Attempted(reuse, net, videoId, fallback, tier).1;
      Count(calls, IsInfoRequest) <= 1 && Count(calls, IsReset) == 0
      && Count(calls, IsCreate) == (if reuse then 0 else 1)
      && (forall c | c in calls :: c.BasicInfo? ==> c.videoId == videoId)
      && (forall c | c in calls :: c.Download? ==> c.options == DownloadOptions(DownloadKind, tier))
      && (!reuse ==> calls[0] == Create)
  {
    var calls := Attempted(reuse, net, videoId, fallback, tier).1;
    var built: seq<Call> := if reuse then [] else [Create];
    var info: seq<Call> := [BasicInfo(videoId)];
    var download: seq<Call> := [Download(DownloadOptions(DownloadKind, tier))];
    CountAppend(built, info, IsInfoRequest);
    CountAppend(built, info, IsReset);
    CountAppend(built, info, IsCreate);
    CountAppend(built + info, download, IsInfoRequest);
    CountAppend(built + info, download, IsReset);
    CountAppend(built + info, download, IsCreate);
  }

  /** The retry policy: the shared client is reset exactly when the first attempt failed, and
      then once; the reset is immediately followed by a rebuild; the library is asked for the basic
      info at most twice; every download uses `video+audio` and the chosen tier. */
  lemma RetryCalls(reuse: bool, first: Network, second: Network, videoId: string, fallback: string,
                   tier: string)
    ensures var calls := Retried(reuse, first, second, videoId, fallback, tier).1;
      Count(calls, IsReset) == (if AttemptOk(reuse, first) then 0 else 1)
      && Count(calls, IsInfoRequest) <= 2
      && (forall c | c in calls :: c.BasicInfo? ==> c.videoId == videoId)
      && (forall c | c in calls :: c.Download? ==> c.options == DownloadOptions(DownloadKind, tier))
      && (!AttemptOk(reuse, first) ==>
            exists i :: 0 <= i < |calls| - 1 && calls[i] == ResetClient && calls[i + 1] == Create)
  {
    AttemptOutcome(reuse, first, videoId, fallback, tier);
    AttemptCalls(reuse, first, videoId, fallback, tier);
    if !AttemptOk(reuse, first) {
      var c1 := Attempted(reuse, first, videoId, fallback, tier).1;
      var c2 := Attempted(false, second, videoId, fallback, tier).1;
      AttemptCalls(false, second, videoId, fallback, tier);
      CountAppend(c1, [ResetClient], IsReset);
      CountAppend(c1 + [ResetClient], c2, IsReset);
      CountAppend(c1, [ResetClient], IsInfoRequest);
      CountAppend(c1 + [ResetClient], c2, IsInfoRequest);
      var calls := c1 + [ResetClient] + c2;
      assert calls[|c1|] == ResetClient && calls[|c1| + 1] == Create;
    }
  }

  /** The retrieval succeeds exactly when the first attempt does or, failing that, a second
      attempt with a freshly built client does; a success always carries a clean title. */
  lemma RetryOutcome(reuse: bool, first: Network, second: Network, videoId: string,
                     fallback: string, tier: string)
    ensures var r := Retried(reuse, first, second, videoId, fallback, tier).0;
      (r.Success? <==> AttemptOk(reuse, first) || AttemptOk(false, second))
      && (r.Success? ==> IsClean(r.value.title))
      && (AttemptOk(reuse, first) ==>
            r == Success(Fetched(Derive(first.basicInfo.value.title, fallback), first.download.value)))
  {
    AttemptOutcome(reuse, first, videoId, fallback, tier);
    AttemptOutcome(false, second, videoId, fallback, tier);
  }

  /** The shared cache after one attempt: as it was when its client was reused or the build
      failed, otherwise the new client stamped with the attempt's clock reading. */
  function CacheAfterAttempt(innertube: Option<Client>, createdAt: int, at: Attempt): (Option<Client>, int) {
    if Reusable(innertube, createdAt, at.now) || at.net.create.Failure? then (innertube, createdAt)
    else (Some(at.net.create.value), at.now)
  }

  /** The shared cache after a try and, when `firstOk` is false, `resetClient()` and a second try. */
  function CacheAfterRetry(innertube: Option<Client>, createdAt: int, firstOk: bool, first: Attempt,
                           second: Attempt): (Option<Client>, int)
  {
    if firstOk then CacheAfterAttempt(innertube, createdAt, first)
    else CacheAfterAttempt(None, 0, second)
  }

  /** The shared cache after the retrieval with one retry. */
  function CacheAfter(innertube: Option<Client>, createdAt: int, first: Attempt, second: Attempt)
    : (Option<Client>, int)
  {
    CacheAfterRetry(innertube, createdAt, AttemptOk(Reusable(innertube, createdAt, first.now), first.net),
                    first, second)
  }

  /** A retrieval that succeeded leaves in the cache the client that served it, fresh at the clock
      reading of the attempt that succeeded: a request arriving at that reading reuses it. A
      retrieval whose two attempts failed leaves either nothing or the client the second built. */
  lemma CacheAfterRetrieval(innertube: Option<Client>, createdAt: int, first: Attempt, second: Attempt,
                            videoId: string, fallback: string, tier: string)
    ensures var reuse := Reusable(innertube, createdAt, first.now);
      var (c, t) := CacheAfter(innertube, createdAt, first, second);
      var r := Retried(reuse, first.net, second.net, videoId, fallback, tier).0;
      (r.Success? ==> c.Some? && Reusable(c, t, if AttemptOk(reuse, first.net) then first.now else second.now))
      && (AttemptOk(reuse, first.net) && reuse ==> c == innertube && t == createdAt)
      && (r.Failure? ==> c == None || (c == Some(second.net.create.value) && t == second.now))
  {
    var reuse := Reusable(innertube, createdAt, first.now);
    RetryOutcome(reuse, first.net, second.net, videoId, fallback, tier);
  }

  /** The shared cache after a download route: untouched without `URL`, otherwise as the retrieval
      leaves it. */
  function CacheAfterServe(innertube: Option<Client>, createdAt: int, url: Option<string>, first: Attempt,
                           second: Attempt): (Option<Client>, int)
  {
    if Absent(url) then (innertube, createdAt) else CacheAfter(innertube, createdAt, first, second)
  }

  /** One attempt against the shared client cache (`fetchVideo` / `fetchAudio`). `calls` records
      the library calls it makes. */
  method Fetch(cache: ClientCache, videoId: string, fallback: string, tier: string, at: Attempt)
    returns (r: Result<Fetched, string>, ghost calls: seq<Call>)
    modifies cache
    ensures (r, calls)
      == Attempted(old(Reusable(cache.innertube, cache.createdAt, at.now)), at.net, videoId, fallback, tier)
    ensures (cache.innertube, cache.createdAt) == CacheAfterAttempt(old(cache.innertube), old(cache.createdAt), at)
  {
    ghost var reuse := Reusable(cache.innertube, cache.createdAt, at.now);
    calls := if reuse then [] else [Create];
    var client := cache.GetClient(at.now, at.net.create);
    if client.Failure? {
      return Failure(client.error), calls;
    }
    calls := calls + [BasicInfo(videoId)];
    match at.net.basicInfo {
      case Failure(e) =>
        r := Failure(e);
      case Success(info) =>
        var title := Derive(info.title, fallback);
        calls := calls + [Download(DownloadOptions(DownloadKind, tier))];
        match at.net.download {
          case Failure(e) =>
            r := Failure(e);
          case Success(stream) =>
            r := Success(Fetched(title, stream));
        }
    }
  }

  /** The `try { fetch } catch { resetClient(); fetch }` of every handler. After a failed first
      attempt the cache holds whatever the second attempt built, or is empty. */
  method FetchWithRetry(cache: ClientCache, videoId: string, fallback: string, tier: string,
                        first: Attempt, second: Attempt)
    returns (r: Result<Fetched, string>, ghost calls: seq<Call>)
    modifies cache
    ensures (r, calls) == Retried(old(Reusable(cache.innertube, cache.createdAt, first.now)),
                                  first.net, second.net, videoId, fallback, tier)
    ensures (cache.innertube, cache.createdAt) == CacheAfter(old(cache.innertube), old(cache.createdAt), first, second)
  {
    ghost var reuse := Reusable(cache.innertube, cache.createdAt, first.now);
    AttemptOutcome(reuse, first.net, videoId, fallback, tier);
    r, calls := Fetch(cache, videoId, fallback, tier, first);
    if r.Failure? {
      cache.ResetClient();
      var again;
      ghost var more;
      again, more := Fetch(cache, videoId, fallback, tier, second);
      AttemptOutcome(false, second.net, videoId, fallback, tier);
      r, calls := again, calls + [ResetClient] + more;
    }
  }

  /** The reply once the retrieval is over: the stream, named `<title>.<ext>` and typed `mime`;
      or, when the retrieval failed or Node refuses the header value, `failureText` with 500. */
  function DownloadReply(r: Result<Fetched, string>, ext: string, mime: string, failureText: string)
    : Reply
  {
    if r.Success? && ValidHeaderValue(AttachmentHeader(r.value.title + "." + ext)) then
      StreamReply(200, [Header("Content-Disposition", AttachmentHeader(r.value.title + "." + ext)),
                        Header("Content-Type", mime)], r.value.stream)
    else ErrorReply(500, failureText)
  }

  /** A reply is either the 200 stream, whose attachment header gives the recipient back exactly
      the file name `<title>.<ext>` (the sanitised title holds no quote and no backslash), or the
      fixed 500 message, whatever went wrong. */
  lemma DownloadReplyShape(r: Result<Fetched, string>, ext: string, mime: string, failureText: string)
    requires '"' !in ext && '\\' !in ext
    requires r.Success? ==> IsClean(r.value.title)
    ensures var reply := DownloadReply(r, ext, mime, failureText);
      (reply.status == 200 <==> r.Success? && ValidHeaderValue(AttachmentHeader(r.value.title + "." + ext)))
      && (reply.status == 200 ==>
            reply.StreamReply? && reply.stream == r.value.stream
            && |reply.headers| == 2 && reply.headers[0].name == "Content-Disposition"
            && FilenameOf(reply.headers[0].value) == Some(r.value.title + "." + ext)
            && reply.headers[1] == Header("Content-Type", mime))
      && (reply.status != 200 ==> reply == ErrorReply(500, failureText))
  {
    var reply := DownloadReply(r, ext, mime, failureText);
    if reply.status == 200 {
      var name := r.value.title + "." + ext;
      assert '"' !in name && '\\' !in name by {
        assert IsStripped('"') && IsStripped('\\');
      }
      AttachmentRoundTrip(name);
    }
  }

  /** What distinguishes the download routes: the title used when the video has none, the file
      extension, the content type and the message of the 500 reply. */
  datatype Endpoint = Endpoint(fallback: string, ext: string, mime: string, failureText: string)

  const MissingUrlText := "Missing URL parameter"

  /** A download route as a value: 400 without touching the library when the `URL` parameter is
      falsy; otherwise the retrieval of the extracted id and its reply. */
  function Served(e: Endpoint, reuse: bool, url: Option<string>, tier: string, first: Network,
                  second: Network): (Reply, seq<Call>)
  {
    if Absent(url) then (ErrorReply(400, MissingUrlText), [])
    else
      var (r, calls) := Retried(reuse, first, second, ExtractVideoId(url.value), e.fallback, tier);
      (DownloadReply(r, e.ext, e.mime, e.failureText), calls)
  }

  /** A download route against the shared client cache. */
  method Serve(cache: ClientCache, e: Endpoint, url: Option<string>, tier: string, first: Attempt,
               second: Attempt) returns (reply: Reply, ghost calls: seq<Call>)
    modifies cache
    ensures (reply, calls)
      == Served(e, old(Reusable(cache.innertube, cache.createdAt, first.now)), url, tier, first.net, second.net)
    ensures (cache.innertube, cache.createdAt)
      == CacheAfterServe(old(cache.innertube), old(cache.createdAt), url, first, second)
  {
    if Absent(url) {
      return ErrorReply(400, MissingUrlText), [];
    }
    var videoId := ExtractVideoId(url.value);
    var r;
    r, calls := FetchWithRetry(cache, videoId, e.fallback, tier, first, second);
    reply := DownloadReply(r, e.ext, e.mime, e.failureText);
  }

  /** The rules every download route keeps: 400 exactly for a falsy `URL`, and then no library
      call; otherwise 200 or the route's fixed 500 message; a 200 names the file `<t>.<ext>` for
      a clean title `t` and types it with the route's content type; at most two basic-info
      requests, at most one reset, and every download with `video+audio` and the given tier. */
  lemma ServedRules(e: Endpoint, reuse: bool, url: Option<string>, tier: string, first: Network,
                    second: Network)
    requires '"' !in e.ext && '\\' !in e.ext
    ensures var (reply, calls) := Served(e, reuse, url, tier, first, second);
      (reply.status == 400 <==> Absent(url))
      && (Absent(url) ==> reply == ErrorReply(400, MissingUrlText) && calls == [])
      && (reply.status == 200 || reply.status == 400 || reply.status == 500)
      && (reply.status == 500 ==> reply == ErrorReply(500, e.failureText))
      && (reply.status == 200 ==>
            reply.StreamReply? && |reply.headers| == 2
            && (exists t :: IsClean(t) && FilenameOf(reply.headers[0].value) == Some(t + "." + e.ext))
            && reply.headers[1] == Header("Content-Type", e.mime))
      && Count(calls, IsInfoRequest) <= 2 && Count(calls, IsReset) <= 1
      && (forall c | c in calls :: c.Download? ==> c.options == DownloadOptions(DownloadKind, tier))
  {
    if !Absent(url) {
      var videoId := ExtractVideoId(url.value);
      var (r, calls) := Retried(reuse, first, second, videoId, e.fallback, tier);
      RetryCalls(reuse, first, second, videoId, e.fallback, tier);
      RetryOutcome(reuse, first, second, videoId, e.fallback, tier);
      DownloadReplyShape(r, e.ext, e.mime, e.failureText);
    }
  }

  /** A 200 reply of a route names the file `<t><dotExt>` for a clean `t`, where `dotExt` is the
      route's extension with its dot, and carries the route's content type. */
  lemma ServedFile(e: Endpoint, reuse: bool, url: Option<string>, tier: string, first: Network,
                   second: Network, dotExt: string)
    requires '"' !in e.ext && '\\' !in e.ext
    requires dotExt == "." + e.ext
    ensures var reply := Served(e, reuse, url, tier, first, second).0;
      reply.status == 200 ==>
        |reply.headers| == 2
        && (exists t :: IsClean(t) && FilenameOf(reply.headers[0].value) == Some(t + dotExt))
        && reply.headers[1] == Header("Content-Type", e.mime)
  {
    ServedRules(e, reuse, url, tier, first, second);
    var reply := Served(e, reuse, url, tier, first, second).0;
    if reply.status == 200 {
      NamedFile(reply.headers[0].value, e.ext, dotExt);
    }
  }

  /** The library calls of a route do not depend on its names: two routes given the same
      request and the same library answers make the same calls. */
  lemma ServedCallsShared(e1: Endpoint, e2: Endpoint, reuse: bool, url: Option<string>, tier: string,
                          first: Network, second: Network)
    ensures Served(e1, reuse, url, tier, first, second).1 == Served(e2, reuse, url, tier, first, second).1
  {
    if !Absent(url) {
      var videoId := ExtractVideoId(url.value);
      AttemptCallsShared(reuse, first, videoId, e1.fallback, e2.fallback, tier);
      AttemptCallsShared(false, second, videoId, e1.fallback, e2.fallback, tier);
    }
  }

  /** One attempt's calls and whether it succeeds do not depend on the fallback title. */
  lemma AttemptCallsShared(reuse: bool, net: Network, videoId: string, f1: string, f2: string, tier: string)
    ensures Attempted(reuse, net, videoId, f1, tier).1 == Attempted(reuse, net, videoId, f2, tier).1
    ensures Attempted(reuse, net, videoId, f1, tier).0.Success? == Attempted(reuse, net, videoId, f2, tier).0.Success?
  {
  }

  /** A file name `<t>.<ext>` with its extension and dot written as one suffix. */
  lemma NamedFile(v: string, ext: string, dotExt: string)
    requires dotExt == "." + ext
    requires exists t :: IsClean(t) && FilenameOf(v) == Some(t + "." + ext)
    ensures exists t :: IsClean(t) && FilenameOf(v) == Some(t + dotExt)
  {
    var t :| IsClean(t) && FilenameOf(v) == Some(t + "." + ext);
    assert t + "." + ext == t + dotExt;
  }

  /** The route answers 200 after a failed first attempt when the second one succeeds, so one
      stale client never costs the user the download. */
  lemma StaleClientRecovered(e: Endpoint, reuse: bool, url: Option<string>, tier: string,
                             first: Network, second: Network)
    requires !Absent(url)
    requires !AttemptOk(reuse, first) && AttemptOk(false, second)
    requires ValidHeaderValue(AttachmentHeader(Derive(second.basicInfo.value.title, e.fallback) + "." + e.ext))
    ensures Served(e, reuse, url, tier, first, second).0.status == 200
  {
    var videoId := ExtractVideoId(url.value);
    AttemptOutcome(reuse, first, videoId, e.fallback, tier);
    AttemptOutcome(false, second, videoId, e.fallback, tier);
  }

  /** A route's fallback title, when it is used, names the file `<fallback>.<ext>`. */
  lemma FallbackName(title: Option<string>, fallback: string, ext: string)
    requires title.None? || title.value == []
    requires IsClean(fallback) && '"' !in ext && '\\' !in ext
    ensures FilenameOf(AttachmentHeader(Derive(title, fallback) + "." + ext)) == Some(fallback + "." + ext)
  {
    DeriveFallback(title, fallback);
    assert IsStripped('"') && IsStripped('\\');
    AttachmentRoundTrip(fallback + "." + ext);
  }

  /** The fallback file names `video.mp4`, `video.mp3` and `audio.mp3` pass Node's header check. */
  lemma FallbackHeader(fallback: string, ext: string)
    requires (fallback == "video" || fallback == "audio") && (ext == "mp4" || ext == "mp3")
    ensures IsClean(fallback)
    ensures ValidHeaderValue(AttachmentHeader(fallback + "." + ext))
  {
    var name := fallback + "." + ext;
    forall c | c in name ensures ' ' <= c <= '~' {
      assert c in fallback || c == '.' || c in ext;
    }
    AttachmentValid(name);
  }

  /** A route whose fallback is `video` or `audio` and whose extension is `mp4` or `mp3` answers
      200 with the file name `<fallback>.<ext>` when the library reports no title. */
  lemma UntitledServed(e: Endpoint, reuse: bool, url: Option<string>, tier: string, first: Network,
                       second: Network, name: string)
    requires (e.fallback == "video" || e.fallback == "audio") && (e.ext == "mp4" || e.ext == "mp3")
    requires name == e.fallback + "." + e.ext
    requires !Absent(url) && AttemptOk(reuse, first) && first.basicInfo.value.title.None?
    ensures var reply := Served(e, reuse, url, tier, first, second).0;
      reply.status == 200 && FilenameOf(reply.headers[0].value) == Some(name)
  {
    var videoId := ExtractVideoId(url.value);
    FallbackHeader(e.fallback, e.ext);
    AttemptOutcome(reuse, first, videoId, e.fallback, tier);
    FallbackName(first.basicInfo.value.title, e.fallback, e.ext);
    DeriveFallback(first.basicInfo.value.title, e.fallback);
  }
}
