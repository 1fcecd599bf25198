/** api/convert-to-short.js: the proxy in front of the conversion service. It validates the
    request, optionally downloads the video itself and stores it in the bucket (one retry after a
    client reset), forwards either the stored path or the URL, and maps the service's answer. */
module ConvertToShort {
  import opened Wrappers
  import opened Strings
  import opened Web
  import opened Innertube
  import opened YouTube
  import Retrieval
  import ShortService

  const ServiceUrl := "https://ytdown-short-791554179661.europe-west1.run.app"
  const GcsBucket := "clip-chronicler-ytdown-shorts"
  const Tier := "bestefficiency"
  const MethodNotAllowed := "Method not allowed"
  const MissingUrlMessage := "Missing url parameter"
  const DefaultErrorMessage := "Conversion failed"
  const Hint := "Set GCP_SA_KEY in Vercel env vars so the video is downloaded on Vercel and uploaded to GCS."
  /** The message of the TypeError thrown by reading `error` of `null`, or by calling
      `toLowerCase` on an `error` that is not a string (the engine's exact wording is not
      modelled). */
  const TypeErrorMessage := "TypeError"

  const KeyPrefix := "input/"
  const KeySuffix := ".mp4"

  /** The stored object's key for a video id and a clock reading. */
  function InputKey(videoId: string, now: nat): string {
    KeyPrefix + (videoId + "-" + NatToString(now)) + KeySuffix
  }

  /** The `gs://` handle of a stored object. */
  function GcsHandle(key: string): string {
    "gs://" + GcsBucket + "/" + key
  }

  /** Reading a key back: the id is everything up to the last `-`, the clock reading what follows
      it. */
  function ParseInputKey(key: string): Option<(string, nat)> {
    if |key| < |KeyPrefix| + |KeySuffix| || key[..|KeyPrefix|] != KeyPrefix
       || key[|key| - |KeySuffix|..] != KeySuffix then None
    else
      var body := key[|KeyPrefix|..|key| - |KeySuffix|];
      var k := WhatwgUrl.AfterLast(body, '-');
      var digits := body[k..];
      if k == 0 || digits == [] || !AllDigits(digits) || (|digits| > 1 && digits[0] == '0') then None
      else Some((body[..k - 1], DecimalValue(digits)))
  }

  /** The last `c` of `x + [c] + y`, for `y` without `c`, is the one between them. */
  lemma {:induction false} AfterLastSplit(x: string, c: char, y: string)
    requires c !in y
    ensures WhatwgUrl.AfterLast(x + [c] + y, c) == |x| + 1
    decreases |y|
  {
    var s := x + [c] + y;
    if y != [] {
      assert s[|s| - 1] == y[|y| - 1] && y[|y| - 1] in y;
      assert s[..|s| - 1] == x + [c] + y[..|y| - 1];
      assert forall d | d in y[..|y| - 1] :: d in y;
      AfterLastSplit(x, c, y[..|y| - 1]);
    } else {
      assert s[|s| - 1] == c;
    }
  }

  /** Every key gives back its video id and clock reading, whatever the id holds (dashes
      included). */
  lemma InputKeyRoundTrip(videoId: string, now: nat)
    ensures ParseInputKey(InputKey(videoId, now)) == Some((videoId, now))
  {
    var digits := NatToString(now);
    var body := videoId + "-" + digits;
    SplitThree(KeyPrefix, body, KeySuffix);
    assert '-' !in digits by {
      forall d | d in digits ensures d != '-' {
        assert IsDigit(d);
      }
    }
    AfterLastSplit(videoId, '-', digits);
    assert body[|videoId| + 1..] == digits && body[..|videoId|] == videoId;
    DecimalRoundTrip(now);
  }

  /** One `downloadAndUploadToGCS` try: the attempt against the shared client, the clock reading
      for the key, and how the write into the bucket ends. */
  datatype UploadTry = UploadTry(at: Retrieval.Attempt, keyClock: nat, transfer: Outcome<string>)

  /** One try as a value. (`Retrieval.Attempted` also derives a title, which this path does not
      use.) */
  function UploadAttempted(reuse: bool, url: string, u: UploadTry): (Result<string, string>, seq<Call>) {
    var videoId := ExtractVideoId(url);
    var (a, calls) := Retrieval.Attempted(reuse, u.at.net, videoId, "", Tier);
    if a.Failure? then (Failure(a.error), calls)
    else
      match u.transfer
      case Fail(e) => (Failure(e), calls)
      case Pass => (Success(GcsHandle(InputKey(videoId, u.keyClock))), calls)
  }

  /** The upload with one retry after `resetClient()`. */
  function Uploaded(reuse: bool, url: string, first: UploadTry, second: UploadTry)
    : (Result<string, string>, seq<Call>)
  {
    var (r1, c1) := UploadAttempted(reuse, url, first);
    if r1.Success? then (r1, c1)
    else
      var (r2, c2) := UploadAttempted(false, url, second);
      (r2, c1 + [ResetClient] + c2)
  }

  predicate UploadOk(reuse: bool, u: UploadTry) {
    Retrieval.AttemptOk(reuse, u.at.net) && u.transfer.Pass?
  }

  lemma UploadAttemptRules(reuse: bool, url: string, u: UploadTry)
    ensures var (r, calls) := UploadAttempted(reuse, url, u);
      (r.Success? <==> UploadOk(reuse, u))
      && (r.Success? ==> r.value == GcsHandle(InputKey(ExtractVideoId(url), u.keyClock)))
      && Retrieval.Count(calls, Retrieval.IsInfoRequest) <= 1
      && Retrieval.Count(calls, Retrieval.IsReset) == 0
      && (!reuse ==> calls[0] == Create)
  {
    Retrieval.AttemptOutcome(reuse, u.at.net, ExtractVideoId(url), "", Tier);
    Retrieval.AttemptCalls(reuse, u.at.net, ExtractVideoId(url), "", Tier);
  }

  /** At most two tries; `resetClient` is called exactly when the first fails, between the two,
      and the second starts by building a new client; a success is the handle of the stored
      `input/<id>-<clock>.mp4`. */
  lemma UploadRetryRules(reuse: bool, url: string, first: UploadTry, second: UploadTry)
    ensures var (r, calls) := Uploaded(reuse, url, first, second);
      Retrieval.Count(calls, Retrieval.IsReset) == (if UploadOk(reuse, first) then 0 else 1)
      && Retrieval.Count(calls, Retrieval.IsInfoRequest) <= 2
      && (r.Success? <==> UploadOk(reuse, first) || UploadOk(false, second))
      && (r.Success? ==> exists now: nat :: r.value == GcsHandle(InputKey(ExtractVideoId(url), now)))
      && (!UploadOk(reuse, first) ==>
            exists i :: 0 <= i < |calls| - 1 && calls[i] == ResetClient && calls[i + 1] == Create)
  {
    UploadAttemptRules(reuse, url, first);
    var (r1, c1) := UploadAttempted(reuse, url, first);
    if !UploadOk(reuse, first) {
      UploadAttemptRules(false, url, second);
      var (r2, c2) := UploadAttempted(false, url, second);
      var calls := c1 + [ResetClient] + c2;
      assert Retrieval.Count(calls, Retrieval.IsReset) == 1 by {
        Retrieval.CountAppend(c1, [ResetClient], Retrieval.IsReset);
        Retrieval.CountAppend(c1 + [ResetClient], c2, Retrieval.IsReset);
      }
      assert Retrieval.Count(calls, Retrieval.IsInfoRequest) <= 2 by {
        Retrieval.CountAppend(c1, [ResetClient], Retrieval.IsInfoRequest);
        Retrieval.CountAppend(c1 + [ResetClient], c2, Retrieval.IsInfoRequest);
      }
      assert calls[|c1|] == ResetClient && calls[|c1| + 1] == Create;
    }
  }

  /** One upload try against the shared client cache. */
  method DownloadAndUploadToGcs(cache: ClientCache, url: string, u: UploadTry)
    returns (r: Result<string, string>, ghost calls: seq<Call>)
    modifies cache
    ensures (r, calls) == UploadAttempted(old(Reusable(cache.innertube, cache.createdAt, u.at.now)), url, u)
    ensures (cache.innertube, cache.createdAt)
      == Retrieval.CacheAfterAttempt(old(cache.innertube), old(cache.createdAt), u.at)
  {
    var videoId := ExtractVideoId(url);
    var fetched;
    fetched, calls := Retrieval.Fetch(cache, videoId, "", Tier, u.at);
    if fetched.Failure? {
      return Failure(fetched.error), calls;
    }
    var gcsPath := InputKey(videoId, u.keyClock);
    match u.transfer {
      case Fail(e) =>
        r := Failure(e);
      case Pass =>
        r := Success(GcsHandle(gcsPath));
    }
  }

  /** The request: its method and its JSON body (`req.body || {}`), with `url` read as a string
      and the other fields as given. */
  datatype ProxyBody = ProxyBody(url: Option<string>, start: Option<Json>, duration: Option<Json>,
                                 stream: Option<Json>)
  datatype ProxyRequest = ProxyRequest(verb: string, body: Option<ProxyBody>)

  /** JavaScript truthiness of a JSON value. */
  predicate Truthy(j: Json) {
    match j
    case JNull => false
    case JBool(b) => b
    case JNum(n) => n != 0
    case JStr(s) => s != []
    case JArr(_) => true
    case JObj(_) => true
  }

  /** The body sent to the service: `gcsInputPath` when an upload produced one, `url` otherwise;
      `start` and `duration` after their defaults; `stream` when the request had it. */
  function ForwardBody(gcsInputPath: Option<string>, url: string, b: ProxyBody): Json {
    var common := map["start" := b.start.GetOr(JNum(0)), "duration" := b.duration.GetOr(JNum(60))];
    var withStream := if b.stream.Some? then common["stream" := b.stream.value] else common;
    if gcsInputPath.Some? then JObj(withStream["gcsInputPath" := JStr(gcsInputPath.value)])
    else JObj(withStream["url" := JStr(url)])
  }

  /** The forwarded body has exactly these keys: `start` and `duration`, `stream` when the
      request had one, and one of `gcsInputPath` and `url` (the path when there is one). `start`
      and `duration` are the request's values, or 0 and 60 when it had none; `stream` is passed
      on as given. */
  lemma ForwardBodyKeys(gcsInputPath: Option<string>, url: string, b: ProxyBody)
    ensures var f := ForwardBody(gcsInputPath, url, b).fields;
      f.Keys == {"start", "duration"} + (if b.stream.Some? then {"stream"} else {})
                + (if gcsInputPath.Some? then {"gcsInputPath"} else {"url"})
      && f["start"] == b.start.GetOr(JNum(0)) && f["duration"] == b.duration.GetOr(JNum(60))
      && (b.stream.Some? ==> f["stream"] == b.stream.value)
      && (gcsInputPath.Some? ==> f["gcsInputPath"] == JStr(gcsInputPath.value))
      && (gcsInputPath.None? ==> f["url"] == JStr(url))
  {
  }

  /** The service's response: status, the outcome of `response.json()`, and the body stream. */
  datatype Upstream = Upstream(status: nat, data: Result<Json, string>, body: Stream)

  /** `response.ok`. */
  predicate Ok(status: nat) { 200 <= status <= 299 }

  const StreamHeaders := [Header("Content-Type", "application/x-ndjson"),
                          Header("Cache-Control", "no-cache"), Header("Connection", "keep-alive")]

  /** `(data.error || '')`, ready for `toLowerCase()`: the error text, or the TypeError that reading
      it throws. */
  function ErrorText(data: Json): Result<string, string> {
    match data
    case JNull => Failure(TypeErrorMessage)
    case JObj(fields) =>
      if "error" !in fields then Success("")
      else
        (match fields["error"]
         case JStr(s) => Success(s)
         case v => if Truthy(v) then Failure(TypeErrorMessage) else Success(""))
    case _ => Success("")
  }

  /** `{ error, hint }`, the hint omitted when the key is present. */
  function HintBody(error: string, hasKey: bool): Json {
    if hasKey then JObj(map["error" := JStr(error)])
    else JObj(map["error" := JStr(error), "hint" := JStr(Hint)])
  }

  /** A failure that a missing sign-in explains: status 500 with `login` or `required` in the
      lower-cased error. */
  predicate LoginFailure(status: nat, message: string) {
    status == 500
    && (Contains(AsciiLower(message), "login") || Contains(AsciiLower(message), "required"))
  }

  function ErrorMessage(message: string): string {
    if message == [] then DefaultErrorMessage else message
  }

  /** The reply to the service's response. */
  function MapUpstream(resp: Upstream, streaming: bool, hasKey: bool): Reply {
    if streaming then
      if Ok(resp.status) then StreamReply(200, StreamHeaders, resp.body)
      else
        match resp.data
        case Failure(e) => JsonReply(500, StreamHeaders, ErrorBody(ErrorMessage(e)))
        case Success(d) => JsonReply(resp.status, StreamHeaders, d)
    else
      match resp.data
      case Failure(e) => ErrorReply(500, ErrorMessage(e))
      case Success(d) =>
        if Ok(resp.status) then JsonReply(200, [], d)
        else
          match ErrorText(d)
          case Failure(e) => ErrorReply(500, ErrorMessage(e))
          case Success(message) =>
            if LoginFailure(resp.status, message) then JsonReply(500, [], HintBody(message, hasKey))
            else JsonReply(resp.status, [], d)
  }

  /** How the service's answer is passed on. Streaming: always the three streaming headers; a
      success is piped with 200, a failure forwards the service's status and JSON. Otherwise a
      success returns the service's JSON unchanged; a failure is passed through unless it is a
      500 about signing in, which gets the error and, only without a key, the hint. */
  lemma MapUpstreamRules(resp: Upstream, streaming: bool, hasKey: bool)
    ensures var reply := MapUpstream(resp, streaming, hasKey);
      (streaming ==> reply.headers == StreamHeaders)
      && (streaming && Ok(resp.status) ==> reply == StreamReply(200, StreamHeaders, resp.body))
      && (streaming && !Ok(resp.status) && resp.data.Success? ==>
            reply == JsonReply(resp.status, StreamHeaders, resp.data.value))
      && (!streaming && Ok(resp.status) && resp.data.Success? ==>
            reply == JsonReply(200, [], resp.data.value))
      && (!streaming && !Ok(resp.status) && resp.data.Success? && ErrorText(resp.data.value).Success? ==>
            if LoginFailure(resp.status, ErrorText(resp.data.value).value)
            then reply.status == 500
                 && reply.body.JObj? && reply.body.fields["error"] == JStr(ErrorText(resp.data.value).value)
                 && ("hint" in reply.body.fields <==> !hasKey)
            else reply == JsonReply(resp.status, [], resp.data.value))
  {
  }

  /** The key changes the reply exactly for a non-streaming sign-in failure of the service: that
      is the only reply the hint is added to. */
  lemma HintOnlyForLoginFailure(resp: Upstream, streaming: bool)
    ensures MapUpstream(resp, streaming, true) != MapUpstream(resp, streaming, false)
      <==> !streaming && resp.data.Success? && !Ok(resp.status) && ErrorText(resp.data.value).Success?
           && LoginFailure(resp.status, ErrorText(resp.data.value).value)
  {
    if !streaming && resp.data.Success? && !Ok(resp.status) && ErrorText(resp.data.value).Success? {
      var m := ErrorText(resp.data.value).value;
      assert "hint" !in HintBody(m, true).fields && "hint" in HintBody(m, false).fields;
    }
  }

  /** A sign-in failure is recognised whatever the case of the service's message. */
  lemma LoginCaseInsensitive(prefix: string, rest: string)
    ensures LoginFailure(500, prefix + "LOGIN" + rest) == LoginFailure(500, prefix + "login" + rest)
  {
    var a, b := prefix + "LOGIN" + rest, prefix + "login" + rest;
    assert AsciiLower(a) == AsciiLower(b) by {
      assert |a| == |b|;
      forall i | 0 <= i < |a| ensures AsciiLower(a)[i] == AsciiLower(b)[i] {
        if |prefix| <= i < |prefix| + 5 {
          assert a[i] == "LOGIN"[i - |prefix|] && b[i] == "login"[i - |prefix|];
        } else if i < |prefix| {
          assert a[i] == prefix[i] == b[i];
        } else {
          assert a[i] == rest[i - |prefix| - 5] == b[i];
        }
      }
    }
  }

  /** Everything outside the proxy during one request: the two upload tries and the service's
      response (`Failure` where `fetch` itself throws). */
  datatype ProxyWorld = ProxyWorld(first: UploadTry, second: UploadTry, fetch: Result<Upstream, string>)

  /** One request: the reply, the library calls, and the body forwarded to the service, if any. */
  datatype Proxying = Proxying(reply: Reply, calls: seq<Call>, forwarded: Option<Json>)

  /** `!!process.env.GCP_SA_KEY`. */
  predicate HasKey(key: Option<string>) { key.Some? && key.value != [] }

  /** The exported handler as a value. */
  function Proxied(reuse: bool, req: ProxyRequest, key: Option<string>, w: ProxyWorld): Proxying {
    var b := req.body.GetOr(ProxyBody(None, None, None, None));
    if req.verb != "POST" then Proxying(ErrorReply(405, MethodNotAllowed), [], None)
    else if Absent(b.url) then Proxying(ErrorReply(400, MissingUrlMessage), [], None)
    else
      var url := b.url.value;
      var (up, calls) := if HasKey(key) then Uploaded(reuse, url, w.first, w.second) else (Success(""), []);
      if up.Failure? then Proxying(ErrorReply(500, ErrorMessage(up.error)), calls, None)
      else
        var forwarded := ForwardBody(if HasKey(key) then Some(up.value) else None, url, b);
        match w.fetch
        case Failure(e) => Proxying(ErrorReply(500, ErrorMessage(e)), calls, Some(forwarded))
        case Success(resp) =>
          Proxying(MapUpstream(resp, b.stream.Some? && Truthy(b.stream.value), HasKey(key)), calls, Some(forwarded))
  }

  /** The shared client cache after one request: touched only when the request passes validation
      and a key is set, and then as the upload with one retry leaves it. */
  function ProxyCacheAfter(innertube: Option<Client>, createdAt: int, req: ProxyRequest,
                           key: Option<string>, w: ProxyWorld): (Option<Client>, int)
  {
    var b := req.body.GetOr(ProxyBody(None, None, None, None));
    if req.verb != "POST" || Absent(b.url) || !HasKey(key) then (innertube, createdAt)
    else
      Retrieval.CacheAfterRetry(innertube, createdAt,
                                UploadOk(Reusable(innertube, createdAt, w.first.at.now), w.first),
                                w.first.at, w.second.at)
  }

  method Handle(cache: ClientCache, req: ProxyRequest, key: Option<string>, w: ProxyWorld)
    returns (reply: Reply, ghost calls: seq<Call>, ghost forwarded: Option<Json>)
    modifies cache
    ensures Proxying(reply, calls, forwarded)
      == Proxied(old(Reusable(cache.innertube, cache.createdAt, w.first.at.now)), req, key, w)
    ensures (cache.innertube, cache.createdAt)
      == ProxyCacheAfter(old(cache.innertube), old(cache.createdAt), req, key, w)
  {
    var b := req.body.GetOr(ProxyBody(None, None, None, None));
    if req.verb != "POST" {
      return ErrorReply(405, MethodNotAllowed), [], None;
    }
    if Absent(b.url) {
      return ErrorReply(400, MissingUrlMessage), [], None;
    }
    var url := b.url.value;
    var gcsInputPath: Option<string> := None;
    calls := [];
    if HasKey(key) {
      var r;
      ghost var reuse := Reusable(cache.innertube, cache.createdAt, w.first.at.now);
      r, calls := DownloadAndUploadToGcs(cache, url, w.first);
      UploadAttemptRules(reuse, url, w.first);
      if r.Failure? {
        cache.ResetClient();
        ghost var more;
        r, more := DownloadAndUploadToGcs(cache, url, w.second);
        calls := calls + [ResetClient] + more;
      }
      if r.Failure? {
        return ErrorReply(500, ErrorMessage(r.error)), calls, None;
      }
      gcsInputPath := Some(r.value);
    }
    var body := ForwardBody(gcsInputPath, url, b);
    forwarded := Some(body);
    match w.fetch {
      case Failure(e) =>
        reply := ErrorReply(500, ErrorMessage(e));
      case Success(resp) =>
        reply := MapUpstream(resp, b.stream.Some? && Truthy(b.stream.value), HasKey(key));
    }
  }

  /** Validation comes first: 405 for any method but POST, then 400 for a falsy `url`; neither
      calls the library nor the service. Past validation the request is forwarded unless the
      upload fails, and a 405 or 400 after forwarding is the service's own. */
  lemma ProxyValidation(reuse: bool, req: ProxyRequest, key: Option<string>, w: ProxyWorld)
    ensures var p := Proxied(reuse, req, key, w);
      (req.verb != "POST" ==> p == Proxying(ErrorReply(405, MethodNotAllowed), [], None))
      && (req.verb == "POST" && (req.body.None? || Absent(req.body.value.url)) ==>
            p == Proxying(ErrorReply(400, MissingUrlMessage), [], None))
      && (req.verb == "POST" && req.body.Some? && !Absent(req.body.value.url) ==>
            p.forwarded.Some? || (p.reply.status == 500 && HasKey(key)))
      && (p.forwarded.Some? && (p.reply.status == 405 || p.reply.status == 400) ==>
            w.fetch.Success? && p.reply.status == w.fetch.value.status)
  {
    var b := req.body.GetOr(ProxyBody(None, None, None, None));
    if req.verb == "POST" && !Absent(b.url) {
      var p := Proxied(reuse, req, key, w);
      if p.forwarded.Some? && w.fetch.Success? {
        MapUpstreamNever405(w.fetch.value, b.stream.Some? && Truthy(b.stream.value), HasKey(key));
      }
    }
  }

  /** The error that reaches the handler's `catch`, if any: the upload's after its retry, then
      `fetch`'s, then `response.json()`'s (not read when a streamed request succeeded), then the
      TypeError of reading `data.error` of a failure. */
  function Thrown(reuse: bool, req: ProxyRequest, key: Option<string>, w: ProxyWorld): Option<string> {
    var b := req.body.GetOr(ProxyBody(None, None, None, None));
    if req.verb != "POST" || Absent(b.url) then None
    else
      var up := Uploaded(reuse, b.url.value, w.first, w.second).0;
      if HasKey(key) && up.Failure? then Some(up.error)
      else
        match w.fetch
        case Failure(e) => Some(e)
        case Success(resp) => ResponseThrown(resp, b.stream.Some? && Truthy(b.stream.value))
  }

  /** The error that reading the service's response throws, if any. */
  function ResponseThrown(resp: Upstream, streaming: bool): Option<string> {
    if streaming && Ok(resp.status) then None
    else
      match resp.data
      case Failure(e) => Some(e)
      case Success(d) =>
        if streaming || Ok(resp.status) then None
        else
          match ErrorText(d)
          case Failure(e) => Some(e)
          case Success(_) => None
  }

  /** An error thrown while reading the service's response is answered with 500 and `{ error }`;
      otherwise a 500 is the service's own status. */
  lemma ResponseErrorsAnswer500(resp: Upstream, streaming: bool, hasKey: bool)
    ensures var r := MapUpstream(resp, streaming, hasKey);
      var t := ResponseThrown(resp, streaming);
      (t.Some? ==> r.status == 500 && r.body == ErrorBody(ErrorMessage(t.value)))
      && (t.None? && r.status == 500 ==> resp.status == 500)
  {
  }

  /** Every error thrown inside the `try` is answered with 500 and `{ error }`, its message or
      `Conversion failed` when that is empty; a failed upload forwards nothing. Without a thrown
      error, a 500 is the service's own status. */
  lemma ThrownErrorsAnswer500(reuse: bool, req: ProxyRequest, key: Option<string>, w: ProxyWorld)
    ensures var p := Proxied(reuse, req, key, w);
      var t := Thrown(reuse, req, key, w);
      (t.Some? ==> p.reply.status == 500 && p.reply.body == ErrorBody(ErrorMessage(t.value)))
      && (t.Some? ==> (p.forwarded.None? <==>
                         HasKey(key) && Uploaded(reuse, req.body.value.url.value, w.first, w.second).0.Failure?))
      && (t.None? && p.reply.status == 500 ==> w.fetch.Success? && w.fetch.value.status == 500)
  {
    var b := req.body.GetOr(ProxyBody(None, None, None, None));
    if req.verb == "POST" && !Absent(b.url) && w.fetch.Success? {
      ResponseErrorsAnswer500(w.fetch.value, b.stream.Some? && Truthy(b.stream.value), HasKey(key));
    }
  }

  /** The reply to the service's response is 405 or 400 only when the service's status is. */
  lemma MapUpstreamNever405(resp: Upstream, streaming: bool, hasKey: bool)
    ensures var r := MapUpstream(resp, streaming, hasKey);
      (r.status == 405 || r.status == 400) ==> r.status == resp.status
  {
  }

  /** Without a key nothing is uploaded and the library is not called; with one, at most two
      tries and a reset exactly after a failed first. The forwarded body carries `gcsInputPath`
      and no `url` exactly when an upload produced a path, and always `start` and `duration`. */
  lemma ProxyUploadAndForward(reuse: bool, req: ProxyRequest, key: Option<string>, w: ProxyWorld)
    requires req.verb == "POST" && req.body.Some? && !Absent(req.body.value.url)
    ensures var p := Proxied(reuse, req, key, w);
      (!HasKey(key) ==> p.calls == [] && p.forwarded.Some?)
      && (HasKey(key) ==>
            Retrieval.Count(p.calls, Retrieval.IsReset) == (if UploadOk(reuse, w.first) then 0 else 1)
            && Retrieval.Count(p.calls, Retrieval.IsInfoRequest) <= 2)
      && (p.forwarded.Some? ==>
            var f := p.forwarded.value.fields;
            "start" in f && "duration" in f
            && ("gcsInputPath" in f <==> HasKey(key)) && ("url" in f <==> !HasKey(key)))
  {
    if HasKey(key) {
      UploadRetryRules(reuse, req.body.value.url.value, w.first, w.second);
    }
    ForwardedKeys(reuse, req, key, w);
  }

  /** The body forwarded to the service carries `gcsInputPath` exactly when a key is set, `url`
      otherwise, and always `start` and `duration`. */
  lemma ForwardedKeys(reuse: bool, req: ProxyRequest, key: Option<string>, w: ProxyWorld)
    requires req.verb == "POST" && req.body.Some? && !Absent(req.body.value.url)
    ensures var p := Proxied(reuse, req, key, w);
      p.forwarded.Some? ==>
        var f := p.forwarded.value.fields;
        "start" in f && "duration" in f
        && ("gcsInputPath" in f <==> HasKey(key)) && ("url" in f <==> !HasKey(key))
  {
    var gcsInputPath := ForwardedBody(reuse, req, key, w);
    ForwardBodyKeys(gcsInputPath, req.body.value.url.value, req.body.value);
  }

  /** A forwarded body is built from the request's body and, when a key is set, the uploaded
      object's path. */
  lemma ForwardedBody(reuse: bool, req: ProxyRequest, key: Option<string>, w: ProxyWorld)
    returns (gcsInputPath: Option<string>)
    requires req.verb == "POST" && req.body.Some? && !Absent(req.body.value.url)
    ensures var p := Proxied(reuse, req, key, w);
      (gcsInputPath.Some? <==> HasKey(key))
      && (p.forwarded.Some? ==>
            p.forwarded.value == ForwardBody(gcsInputPath, req.body.value.url.value, req.body.value))
  {
    var up := Uploaded(reuse, req.body.value.url.value, w.first, w.second).0;
    gcsInputPath := if HasKey(key) then Some(if up.Success? then up.value else "") else None;
  }

  /** What the service reads from a forwarded body. */
  function ServiceReads(j: Json): ShortService.ConvertBody {
    var url := if j.JObj? && "url" in j.fields && j.fields["url"].JStr? then Some(j.fields["url"].s) else None;
    ShortService.ConvertBody(url, None, None)
  }

  /** The service reads only `url`: a body forwarded after a successful upload, which carries
      `gcsInputPath` instead, is refused by it with 400. */
  lemma StoredInputRefusedByService(reuse: bool, req: ProxyRequest, key: Option<string>, w: ProxyWorld,
                                    cached: bool, sw: ShortService.ConvertWorld)
    requires req.verb == "POST" && req.body.Some? && !Absent(req.body.value.url)
    requires HasKey(key)
    requires Proxied(reuse, req, key, w).forwarded.Some?
    ensures ShortService.Converted(cached, ServiceReads(Proxied(reuse, req, key, w).forwarded.value), sw, false).reply
      == ErrorReply(400, ShortService.MissingUrlMessage)
  {
    ProxyUploadAndForward(reuse, req, key, w);
  }
}
