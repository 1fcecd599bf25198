# YTDown in Dafny

YTDown is a small YouTube downloader. It has five parts:

- **Download routes.** `api/downloadmp4.js` and `api/downloadmp3.js` are serverless functions. Each looks up a video through the `youtubei.js` client and streams it back as an attachment named after its sanitised title.
- **Development server.** `server.js` serves the same two routes with Express.
- **Shared client module.** `lib/youtube.js` keeps one cached client, five minutes at most, and extracts the video id from a link.
- **Conversion service.** `short-service/server.js` downloads a video into `/tmp`, crops and scales it to a 9:16 portrait short with ffmpeg, and uploads the result to a storage bucket. It answers with a signed link and removes the scratch files it recorded.
- **Proxy and page.** `api/convert-to-short.js` sits in front of that service: it can store the input in the bucket itself, forwards the request, and maps the service's answer. `src/js/ytdown.js` is the page script. It enables the download button for YouTube links, tracks the chosen format and issues the download request.

The model has one module per source file, plus shared modules:

- `Wrappers`: option, result and outcome types.
- `Strings`: prefix scans, `includes`, ASCII lower-casing, `trim`, decimal rendering, `slice`.
- `WhatwgUrl`: a simplified `new URL` and `searchParams.get`.
- `Web`: JSON values, replies, Node's header-value check, the `Content-Disposition` attachment header.
- `Innertube`: the library's values and the calls made of it.
- `Title`: title sanitisation.
- `Retrieval`: the fetch-with-one-retry shape that the four download handlers share.
- `Files`: the local disk as a set of paths.
- `Ffmpeg`: the argument list, stderr collection and how the process settles.

How the model is built:

- **State.** State the source updates in place is a class with methods: the client caches, the disk and the page. Loops in the source are loops here: the stderr chunks, the cleanup in `finally`, and the `forEach` over the format buttons.
- **Specification functions.** Each handler is also written as a pure function (`Served`, `Converted`, `Proxied`). The method's postcondition ties it to that function, and the properties are proved as lemmas about the function.
- **Library calls.** The ghost `calls` results record the library calls a handler makes, so the lemmas can count resets, info requests and builds.
- **Outside world.** The network, the library, the bucket, ffmpeg and the clock are parameters: each call's outcome, and each clock reading in the order the code takes them.

## Model

| member | source | states |
|---|---|---|
| YouTube.ClientCache.constructor | lib/youtube.js:1-2 | At load time there is no client and the creation time is 0. |
| YouTube.ClientCache.GetClient | lib/youtube.js:5-16 | A cached client no more than five minutes old is returned and nothing changes. Otherwise exactly one client is built and returned; only a successful build is stored, with the clock reading. |
| YouTube.ClientCache.ResetClient | lib/youtube.js:18-21 | The cache is emptied, so no later call can reuse a client. |
| YouTube.FreshnessBoundary | lib/youtube.js:3-7 | A client is still reused at exactly 300000 ms of age and rebuilt one millisecond later: the comparison is strict. |
| YouTube.ParseHttps | lib/youtube.js:25 | An `https` link with a plain lower-case host parses into that host, the path (`/` when empty) and the query. |
| YouTube.ShortLinkId | lib/youtube.js:26-27 | For `https://youtu.be/<id>` the id is the path without its leading `/`. |
| YouTube.WatchPath | lib/youtube.js:25 | The path of `/watch?v=<id>...` is `/watch`. |
| YouTube.WatchQuery | lib/youtube.js:25 | The query of `/watch?v=<id><more>` is `v=<id>`, followed by nothing or by `&...`. |
| YouTube.FirstPairV | lib/youtube.js:29 | `searchParams.get('v')` on a query that starts with `v=<id>` gives the id. |
| YouTube.WatchLinkId | lib/youtube.js:29 | For `https://<host>/watch?v=<id><more>`, where the host does not contain `youtu.be`, the id is the `v` parameter. |
| YouTube.BareIdUnchanged | lib/youtube.js:30-32 | Input without `:` cannot be parsed, so it is returned unchanged (a bare id is its own id). |
| YouTube.NoVideoParameterUnchanged | lib/youtube.js:29 | An `https` link whose host does not contain `youtu.be` and whose `v` parameter is missing or empty is returned unchanged, whatever its path and query. |
| YouTube.WwwHost | lib/youtube.js:26 | `www.youtube.com` is a plain host and does not contain `youtu.be`. |
| YouTube.ShortExample | lib/youtube.js:23-33 | `https://youtu.be/abc` gives `abc`. |
| YouTube.WatchExample | lib/youtube.js:23-33 | `https://www.youtube.com/watch?v=dQw4w9WgXcQ&t=42` gives `dQw4w9WgXcQ`. |
| WhatwgUrl.ParseNeedsColon | lib/youtube.js:25 | `new URL` throws on input without a `:`, which sends `extractVideoId` to its fallback. |
| WhatwgUrl.HttpsScheme | lib/youtube.js:25 | Parsing `https://<rest>` reads the scheme `https` and continues at the authority `<rest>`. |
| WhatwgUrl.PlainAuthority | lib/youtube.js:25-26 | For a special scheme, a plain host followed by a path, query or fragment becomes `hostname`, `pathname` and the query. |
| Title.Sanitize | api/downloadmp4.js:7 | The result contains none of the nine characters the pattern removes. |
| Title.SanitizeAppend | api/downloadmp4.js:7 | The global replace works character by character: sanitising a concatenation sanitises each part. |
| Title.SanitizeChar | api/downloadmp4.js:7 | One character is dropped exactly when it is one of the nine. |
| Title.SanitizeKeepsClean | api/downloadmp4.js:7 | A title without those characters is left unchanged. |
| Title.SanitizeIdempotent | api/downloadmp4.js:7 | Sanitising twice is sanitising once. |
| Title.SanitizeSkip | api/downloadmp4.js:7 | A removed character is skipped and the text around it is kept. |
| Title.SanitizeExample | api/downloadmp4.js:7 | `My:Clip/2024?` becomes `MyClip2024`. |
| Title.DeriveFallback | api/downloadmp4.js:7 | A missing or empty title gives the route's fallback name. |
| Title.DeriveAllStripped | api/downloadmp4.js:7 | Every non-empty title made only of removed characters gives the empty name, whatever the fallback: the fallback applies before the replace, not after. |
| Web.AttachmentRoundTrip | api/downloadmp4.js:34 | A file name without `"` or `\` is read back intact from `attachment; filename="<name>"`. |
| Web.AttachmentNeedsNoQuote | api/downloadmp4.js:34 | A file name containing `"` cannot be carried intact, which is why sanitising removes quotes. |
| Web.AttachmentValid | api/downloadmp4.js:34 | An attachment header for a name of printable ASCII characters passes Node's header-value check. |
| Retrieval.QualityTierChoice | api/downloadmp4.js:9 | The tier is `best` exactly when `Quality` is the string `high`, and `bestefficiency` otherwise. |
| Retrieval.AttemptOutcome | api/downloadmp4.js:4-13 | An attempt succeeds exactly when a client is at hand, the basic info arrives and the download starts. It then returns the derived title, which is clean, and the stream. |
| Retrieval.AttemptCalls | api/downloadmp4.js:4-13 | One attempt builds a client only when none is reusable and asks for the given id's info at most once. Its downloads request `video+audio` in the chosen tier, and it never resets. |
| Retrieval.RetryCalls | api/downloadmp4.js:26-32 | Exactly one reset when the first attempt fails and none otherwise. At most two info requests. After a reset a new client is built at once. |
| Retrieval.RetryOutcome | api/downloadmp4.js:26-32 | The retrieval succeeds exactly when the first attempt does, or the second does on a fresh client. A success of the first attempt is used as is. |
| Retrieval.Fetch | api/downloadmp4.js:4-13 | One attempt against the shared cache matches the attempt function. The cache afterwards is as it was when the client was reused or the build failed; otherwise it holds the new client stamped with the attempt's clock reading. |
| Retrieval.FetchWithRetry | api/downloadmp4.js:26-32 | The try/catch retry against the shared cache matches the retry function. Afterwards the cache is as the first attempt left it when that attempt succeeded; otherwise it holds what the second attempt built after the reset, or nothing. |
| Retrieval.DownloadReplyShape | api/downloadmp4.js:34-43 | 200 exactly when retrieval succeeded and the header value passes Node's check. The 200 reply has the attachment header naming `<title>.<ext>`, the content type, and the stream. Anything else is the fixed 500 reply. |
| Retrieval.CacheAfterRetrieval | api/downloadmp4.js:26-32 | A successful retrieval leaves in the cache the client that served it, fresh at the succeeding attempt's clock reading, so a request at that reading reuses it. A reused client that served the first attempt leaves the cache untouched. A retrieval that failed leaves nothing, or the client the second attempt built. |
| Retrieval.Serve | api/downloadmp4.js:15-44 | A download route against the shared cache matches the route function. Without `URL` the cache is untouched; otherwise it is as the retrieval leaves it. |
| Retrieval.ServedRules | api/downloadmp4.js:18-43 | 400 exactly for a falsy `URL`, with no library call. Otherwise 200 or the route's 500 text. At most two info requests and one reset, and downloads only in the route's tier. |
| Retrieval.StaleClientRecovered | api/downloadmp4.js:28-31 | A failed first attempt followed by a working second one still answers 200. |
| Retrieval.FallbackName | api/downloadmp4.js:7 | An untitled video's file is named `<fallback>.<ext>`. |
| Retrieval.FallbackHeader | api/downloadmp4.js:34 | `video` and `audio` are clean, and their attachment headers pass Node's check. |
| Retrieval.UntitledServed | api/downloadmp4.js:34 | A route whose first attempt succeeds without a title answers 200 with the file `<fallback>.<ext>`. |
| Retrieval.ServedFile | api/downloadmp4.js:34-35 | A 200 reply carries exactly two headers: an attachment named `<title>.<ext>` and the route's content type. |
| Retrieval.ServedCallsShared | api/downloadmp4.js:26-32 | Two routes given the same request and the same library answers make the same library calls, whatever their names. |
| DownloadMp4.FetchVideo | api/downloadmp4.js:4-13 | `fetchVideo` is one attempt with the fallback `video` and the tier that `Quality` selects. The cache afterwards is as one attempt leaves it. |
| DownloadMp4.Handle | api/downloadmp4.js:15-44 | The exported handler is the route function for `.mp4`, `video/mp4` and `Failed to download video`. The cache afterwards is as the route leaves it. |
| DownloadMp4.Mp4Rules | api/downloadmp4.js:18-42 | 400 exactly without `URL`. 500 is `Failed to download video`. 200 carries a clean `<title>.mp4` and `video/mp4`. Downloads are `video+audio`, in `best` exactly for `Quality=high`. |
| DownloadMp4.Mp4Replies | api/downloadmp4.js:18-42 | 400 exactly without `URL`. 500 is `Failed to download video`. 200 carries `<title>.mp4` and `video/mp4`. |
| DownloadMp4.Mp4Downloads | api/downloadmp4.js:9-10 | Every download asks for `video+audio`, in `best` exactly when `Quality=high`. |
| DownloadMp4.UntitledVideo | api/downloadmp4.js:7 | An untitled video is saved as `video.mp4`. |
| DownloadMp3.FetchAudio | api/downloadmp3.js:4-10 | `fetchAudio` is one attempt with the fallback `audio` in the `bestefficiency` tier. The cache afterwards is as one attempt leaves it. |
| DownloadMp3.Handle | api/downloadmp3.js:12-40 | The exported handler is the route function for `.mp3`, `audio/mpeg` and `Failed to download audio`. The cache afterwards is as the route leaves it. |
| DownloadMp3.Mp3Rules | api/downloadmp3.js:15-38 | 400 exactly without `URL`. 500 is `Failed to download audio`. 200 carries a clean `<title>.mp3` and `audio/mpeg`. Downloads are always `video+audio` in `bestefficiency`. |
| DownloadMp3.Mp3Replies | api/downloadmp3.js:15-38 | 200 carries `<title>.mp3` and `audio/mpeg`. |
| DownloadMp3.UntitledAudio | api/downloadmp3.js:7 | An untitled video is saved as `audio.mp3`. |
| DevServer.FetchVideo | server.js:14-21 | The server's `fetchVideo` is one attempt with the fallback `video` and the tier that the quality selects. The cache afterwards is as one attempt leaves it. |
| DevServer.HandleMp4 | server.js:23-43 | The `/downloadmp4` route matches the route function. The cache afterwards is as the route leaves it. |
| DevServer.HandleMp3 | server.js:45-65 | The `/downloadmp3` route matches the route function for `.mp3`, with no quality and the fallback `video`. The cache afterwards is as the route leaves it. |
| DevServer.Mp4RouteAsDeployed | server.js:23-43 | The server's mp4 route gives the same reply and calls as the deployed one for every input. |
| DevServer.Mp3RouteRules | server.js:45-65 | 400 exactly without `URL`. 500 is `Failed to download audio`. Downloads are always in `bestefficiency`. The library calls are the deployed route's. |
| DevServer.Mp3RouteCalls | server.js:45-65 | The dev route makes the same library calls as the deployed `/api/downloadmp3`. |
| DevServer.UntitledMp3 | server.js:53-58 | An untitled video is saved as `video.mp3` by this route. |
| DevServer.UntitledAudioDiffers | server.js:53-58 | For an untitled video this route's reply differs from the deployed mp3 route's (`video.mp3` against `audio.mp3`). |
| Files.Disk.Create | short-service/server.js:45 | Opening a write stream makes the file exist. |
| Files.Disk.Unlink | short-service/server.js:128 | `unlinkSync` of an existing path removes it and nothing else. |
| Ffmpeg.ArgsRead | short-service/server.js:57-70 | The 22 arguments put the input after `-i` and the output last. The texts after `-ss` and `-t` are decimal numbers whose values are the start and the duration. |
| Ffmpeg.ArgsInjective | short-service/server.js:57-70 | Different input, output, start or duration give a different command line. |
| Ffmpeg.ConcatAppend | short-service/server.js:73-75 | Collected stderr follows arrival order across any split of the chunks. |
| Ffmpeg.ConcatContains | short-service/server.js:73-75 | Every chunk appears in the collected stderr, at the offset the earlier chunks add up to. |
| Ffmpeg.CollectStderr | short-service/server.js:73-75 | The appending loop yields the chunks joined in order. |
| Ffmpeg.SettleRules | short-service/server.js:77-82 | The promise resolves exactly on code 0. Another code rejects with `FFmpeg exited <code>: ` and the last min(500, length) characters of stderr. |
| Ffmpeg.MessageGivesCode | short-service/server.js:79 | The code text is read back from a failure message: the text after the prefix, up to the first `:`. |
| Ffmpeg.CodeTextInjective | short-service/server.js:79 | Different codes, `null` included, print differently. |
| Ffmpeg.ExitMessageDeterminesCode | short-service/server.js:79 | Two failed closes with the same message had the same exit code. |
| Ffmpeg.ConvertToShort | short-service/server.js:51-84 | Runs with the argument list for the requested window and settles as above. Afterwards the output file exists exactly when ffmpeg closed with 0, or closed otherwise after starting to write it. A spawn failure leaves the disk unchanged. |
| ShortService.ServiceClient.constructor | short-service/server.js:16 | The service starts without a client. |
| ShortService.ServiceClient.GetYoutubeClient | short-service/server.js:18-26 | A client, once built, is returned forever (no expiry, no reset). Until then every call builds one and stores it only on success. |
| ShortService.ExtractVideoIdAsLibrary | short-service/server.js:28-36 | The service's own `extractVideoId` agrees with the library's on every input. |
| ShortService.ScratchPaths | short-service/server.js:44 | An input scratch path is never an output scratch path, and different clock readings give different input paths. |
| ShortService.DestNameRoundTrip | short-service/server.js:119 | The object name gives back the clock reading and the title's first 50 characters. |
| ShortService.UploadRules | short-service/server.js:86-98 | A success uploads as `video/mp4`, then signs a read link expiring 24 hours after the clock reading, and returns it. A failed upload is the error and nothing is signed. |
| ShortService.DownloadVideo | short-service/server.js:38-49 | Matches the download step: the calls and result, and the scratch input created once the download stream exists. A failed transfer leaves the partial file. |
| ShortService.Cleanup | short-service/server.js:126-129 | The `finally` loop deletes exactly the recorded paths that exist. |
| ShortService.ConvertDownloaded | short-service/server.js:115-122 | After the download: the reply, the ffmpeg command line, the bucket requests and the output file are those of `Finished`. `ConvertCommands` states what those are. |
| ShortService.ConvertWith | short-service/server.js:100-131 | The handler matches the conversion function: the reply, the library calls, the ffmpeg command line, the bucket requests, and the disk afterwards (`before + created - removed`). The service's client is built by the first request past validation whose build succeeds, and then kept. |
| ShortService.Convert | short-service/server.js:100-131 | `POST /convert` as written, against the conversion function without partial-file cleanup: the same reply, calls, ffmpeg command line, bucket requests and client rule. |
| ShortService.ConvertLeakFree | short-service/server.js:100-131 | With the partial input removed on a failed transfer, the request never leaves a new file on disk. The reply, calls, ffmpeg command line, bucket requests and client rule are as for `Convert`. |
| ShortService.ConvertCommands | short-service/server.js:112-120 | Before the video is on disk, neither ffmpeg nor the bucket is called. After it, ffmpeg gets the scratch input, the scratch output and the body's `start`/`duration` (0 and 60 when missing). The upload of the output as `video/mp4` under `DestName(clock, title)` follows only a successful ffmpeg run. The read link expiring 86400000 ms after the clock is signed only after a successful upload. |
| ShortService.ConvertSucceededCommands | short-service/server.js:115-122 | A 200 means that ffmpeg cut the requested window of this request's scratch input, and that its output was uploaded under the title's object name and then signed. |
| ShortService.ConvertRules | short-service/server.js:101-125 | 400 exactly for a falsy `url`, with no call and no file. 200 exactly when every stage succeeds, with the signed link and the sanitised title (fallback `short`). Otherwise 500 with a non-empty message. |
| ShortService.RecordedPathsCleaned | short-service/server.js:126-129 | Once the download completed, both scratch paths are removed and no created file survives. |
| ShortService.PartialInputLeaks | short-service/server.js:44-47 | As written: when the transfer into the scratch file fails, that file is created and never removed. |
| ShortService.NoScratchFileSurvives | short-service/server.js:126-129 | Corrected: every file a request creates is removed, whatever fails. |
| ConvertToShort.InputKeyRoundTrip | api/convert-to-short.js:29 | The stored object's key `input/<id>-<clock>.mp4` gives back the id, even one containing dashes, and the clock reading. |
| ConvertToShort.UploadAttemptRules | api/convert-to-short.js:22-37 | One try succeeds exactly when the attempt and the transfer both do, and returns the `gs://` handle of `input/<id>-<clock>.mp4`. At most one info request, no reset. |
| ConvertToShort.UploadRetryRules | api/convert-to-short.js:59-67 | At most two tries. Exactly one reset, followed by a client build, when the first try fails. A success is the handle of a stored input key. |
| ConvertToShort.DownloadAndUploadToGcs | api/convert-to-short.js:22-37 | One try against the shared cache matches the try function. The cache afterwards is as one attempt leaves it; the transfer does not touch it. |
| ConvertToShort.ForwardBodyKeys | api/convert-to-short.js:72-74 | The forwarded body has exactly `start`, `duration`, `stream` when the request had one, and one of `gcsInputPath` and `url` (the path when there is one). `start` and `duration` are the request's values, or 0 and 60 (the defaults of line 44); `stream` is passed on as given. |
| ConvertToShort.ForwardedKeys | api/convert-to-short.js:72-74 | A body forwarded by the handler carries `gcsInputPath` exactly when a key is set, `url` otherwise, and always `start` and `duration`. |
| ConvertToShort.ResponseErrorsAnswer500 | api/convert-to-short.js:83-112 | An error thrown while reading the service's response (`json()`, or `data.error` of a failure) becomes 500 with `{ error }`. Otherwise a 500 reply is the service's own 500. |
| ConvertToShort.ThrownErrorsAnswer500 | api/convert-to-short.js:113-116 | Every error thrown in the `try` (the upload after its retry, `fetch`, `json()`, reading `data.error`) is answered with 500 and its message, or `Conversion failed` when that is empty. Only a failed upload forwards nothing. Without a thrown error, 500 is the service's own status. |
| ConvertToShort.MapUpstreamRules | api/convert-to-short.js:83-112 | Streaming always sets the three streaming headers; success is piped with 200 and failure forwards the service's status and JSON. Otherwise success returns the JSON unchanged; failure passes through, except a sign-in 500, which gets the error and, only without a key, the hint. |
| ConvertToShort.HintOnlyForLoginFailure | api/convert-to-short.js:100-108 | The key changes the reply exactly for a non-streaming 500 whose lower-cased error mentions `login` or `required`. |
| ConvertToShort.LoginCaseInsensitive | api/convert-to-short.js:100-101 | `LOGIN` and `login` in the service's error are recognised alike. |
| ConvertToShort.MapUpstreamNever405 | api/convert-to-short.js:87-109 | Once the service has answered, a 405 or 400 reply is the service's own status. |
| ConvertToShort.Handle | api/convert-to-short.js:39-117 | The handler matches the proxy function: reply, library calls and forwarded body. The cache is touched only past validation with a key. Then it is as the first try left it when that upload succeeded; otherwise it holds what the second try built after the reset, or nothing. |
| ConvertToShort.ProxyValidation | api/convert-to-short.js:40-48 | Any method but POST gets 405 and a falsy `url` gets 400, both before any call. After validation the request is forwarded unless the upload fails. |
| ConvertToShort.ProxyUploadAndForward | api/convert-to-short.js:51-74 | Without a key nothing is uploaded and `url` is forwarded. With one, at most two tries with one reset after a failed first, and `gcsInputPath` is forwarded instead of `url`. |
| ConvertToShort.StoredInputRefusedByService | api/convert-to-short.js:72-74 | With a key, the forwarded body has no `url`, so the conversion service (short-service/server.js:101-105) answers it with 400 `Missing url parameter`. |
| YtDown.RegexMeansYouTubeLink | src/js/ytdown.js:9 | The backtracking match of the pattern accepts exactly the strings that start with optional `http://` or `https://`, optional `www.`, then one of `youtube.com/watch?v=`, `youtube.com/shorts/`, `youtu.be/`. |
| YtDown.WatchLinkAccepted | src/js/ytdown.js:9 | `https://www.youtube.com/watch?v=...` is accepted. |
| YtDown.MobileHostRefused | src/js/ytdown.js:9 | `https://m.youtube.com/watch?v=...` is refused. |
| YtDown.Endpoint | src/js/ytdown.js:43 | The endpoint is `/downloadmp3` exactly for the format `mp3`, and `/downloadmp4` otherwise. |
| YtDown.DownloadUrlRoundTrip | src/js/ytdown.js:44 | The request address gives back its endpoint and, after `?URL=`, the encoded link, whatever the encoder produced. |
| YtDown.Page.constructor | src/js/ytdown.js:6-7 | The page starts with the format `mp4` and no request. |
| YtDown.Page.SelectFormat | src/js/ytdown.js:11-17 | After a click on a format button exactly that button is active and the format is its `data-format`. Nothing else changes. |
| YtDown.Page.OnInput | src/js/ytdown.js:19-23 | The button is disabled exactly when the trimmed input is not a YouTube link. A valid link hides the error. |
| YtDown.Page.StartDownload | src/js/ytdown.js:33-49 | An invalid trimmed link shows `Please enter a valid YouTube URL.` and requests nothing. A valid one hides the error and requests `<endpoint>?URL=<encoded link>` for the current format. |
| YtDown.Page.OnKeydown | src/js/ytdown.js:25-29 | Enter on an enabled button does what `StartDownload` does. For an invalid link the error is shown and nothing is requested; for a valid one the error is hidden and the request appended. Any other key, or a disabled button, changes nothing. |

## Left out

- Streaming and I/O: these are parameters of the model, each a success with a value or a failure with a message.
  - Piping streams into responses, files or the bucket (`Readable.fromWeb`, `pipeline`, `.pipe`).
  - The calls `Innertube.create`, `getBasicInfo` and `download`.
  - The `fetch` to the conversion service.
  - The bucket's `upload`, `createWriteStream` and `getSignedUrl`.
- A stream that fails after the headers are sent: the `headersSent` guard in the download routes is not modelled. Replies are decided before piping starts.
- The ffmpeg process: transcoding is not modelled. A run is its stderr chunks, how it ended (close code, `null`, or spawn error) and whether it left an output file.
- Framework glue: Express setup, `listen`, `/health`, CORS, static files, `dotenv`, logging, and `getStorage`'s credential parsing.
- Page DOM work: querying elements, the `loading` class and `setLoading`, and the hidden iframe with its 5-second removal. A request is modelled as the address given to the iframe. `encodeURIComponent` is a function parameter.
- The markup: the format buttons' `data-format` values and the button's initial `disabled` state come from HTML that is not part of this model, so they are constructor parameters.
- Concurrency: requests run one at a time against the module-level caches.
- Library outcomes: an attempt's outcome is given per attempt and does not depend on which client object is used.
- WhatwgUrl.Parse: a simplified WHATWG URL parser. It leaves out:
  - IDNA and IPv4/IPv6 hosts;
  - fragment handling beyond stopping at `#`, and ports beyond a decimal check;
  - backslash as a path separator for special schemes (it is an ordinary character here);
  - `file:` as a special scheme;
  - resolving `.` and `..` path segments;
  - the percent-encoding the parser applies to paths and queries. So `https://youtu.be/a b` gives `a%20b` in the source but `a b` in the model;
  - percent-decoding of hosts. `https://you%74u.be/abc` has the hostname `youtu.be` in the source, so `extractVideoId` gives `abc`. The model keeps the host `you%74u.be` and returns the input;
  - `%` as a forbidden domain code point, and the rest of the standard's forbidden host and domain code points beyond the short list kept. `https://a%zz.com/watch?v=x` throws in the source, so the input comes back; the model gives `x`;
  - the failure on an empty host followed by a port, or preceded by credentials, under a non-special scheme. `foo://:80/?v=abc` fails in the source and returns the input; the model gives `abc`.
- `searchParams.get`: only `+` is decoded, to a space; percent-decoding is not modelled.
- Strings: characters stand for UTF-16 code units. Surrogate pairs are not modelled.
- ConvertToShort.MapUpstream: `toLowerCase` is modelled as ASCII lower-casing. Non-ASCII characters that Unicode lower-cases into ASCII letters are not modelled.
- ConvertToShort.ErrorText: the wording of JavaScript's `TypeError` messages is a placeholder constant.
- Query and body values: request values are strings, or JSON values passed through (`start`, `duration`, `stream` in the proxy).
  - Express's array-valued query parameters and a non-string `url` are not modelled.
  - The conversion service reads `start` and `duration` as naturals, since `String()` of fractional or negative numbers is floating-point formatting.
- `GCS_BUCKET`: the service's environment override is not modelled. The bucket name is used only through the upload outcome.
- YtDown.Page.StartDownload: does not model the loading indicator or the iframe's removal after 5 seconds.
- ShortService.ConvertRules: the 500 message is stated only as non-empty. Its exact text is given by `Converted`, and `SettleRules` and `UploadRules` state it per stage.
- The code has none of the following, so the model has none either:
  - rotation between client profiles;
  - ffmpeg progress parsing or streamed progress records;
  - a `gcsInputPath` input in the service;
  - deletion of the inputs stored in the bucket.
- The service ignores `gcsInputPath`. So with a key set, the proxy's forwarded request is refused with 400 (`ConvertToShort.StoredInputRefusedByService`).
- The development server's `/downloadmp3` reuses `fetchVideo`. It names an untitled download `video.mp3` where the deployed route says `audio.mp3` (`DevServer.UntitledAudioDiffers`). This is modelled as written, not as a defect.

## Findings

| source | as written | input that shows it | evidently intended | confidence | as-written member | corrected member |
|---|---|---|---|---|---|---|
| short-service/server.js:44-47 | `downloadVideo` creates `/tmp/input-<now>.mp4` before the transfer. When the transfer fails it throws before returning the path, so the handler's `inputPath` stays unset and the `finally` loop (lines 126-129) never deletes the partial file. | A request whose video info and download succeed but whose stream fails midway (`w.transfer == Fail(e)`). | Every scratch file a request creates is removed, whatever fails. | not executed | ShortService.PartialInputLeaks | ShortService.NoScratchFileSurvives |
