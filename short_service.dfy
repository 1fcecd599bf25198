/** short-service/server.js: the conversion service. `POST /convert` downloads the video to a
    scratch file, has ffmpeg cut and reframe it into a second scratch file, uploads that to the
    bucket under a name built from the clock and the title, answers with a signed link valid for
    a day, and in every case deletes the scratch paths it recorded. */
module ShortService {
  import opened Wrappers
  import opened Strings
  import opened WhatwgUrl
  import opened Web
  import opened Innertube
  import opened Title
  import opened Files
  import opened Ffmpeg
  import YouTube
  import Retrieval

  const TmpDir := "/tmp"
  const Fallback := "short"
  const Tier := "bestefficiency"
  const TitleLimit: nat := 50
  const SignedUrlLifetimeMs: nat := 24 * 60 * 60 * 1000
  const MissingUrlMessage := "Missing url parameter"
  const DefaultErrorMessage := "Conversion failed"

  /** The service's own client cache: built on first use, never expired, never reset. */
  class ServiceClient {
    var innertube: Option<Client>
    ghost var builds: nat

    constructor ()
      ensures innertube == None && builds == 0
    {
      innertube := None;
      builds := 0;
    }

    /** `getYoutubeClient()`: the cached client whenever there is one; otherwise `create`, kept
        when it succeeds. */
    method GetYoutubeClient(create: Result<Client, string>) returns (client: Result<Client, string>)
      modifies this
      ensures old(innertube).Some? ==>
        client == Success(old(innertube).value) && innertube == old(innertube) && builds == old(builds)
      ensures old(innertube).None? ==>
        client == create && builds == old(builds) + 1
        && innertube == (if create.Success? then Some(create.value) else None)
      ensures client.Success? ==> innertube == Some(client.value)
    {
      if innertube.None? {
        builds := builds + 1;
        match create
        case Failure(e) =>
          return Failure(e);
        case Success(c) =>
          innertube := Some(c);
      }
      client := Success(innertube.value);
    }
  }

  /** The service's copy of `extractVideoId`. */
  function ExtractVideoId(url: string): string {
    match Parse(url)
    case None => url
    case Some(u) =>
      if Contains(u.hostname, "youtu.be") then DropFirst(u.pathname)
      else
        match SearchParam(u, "v")
        case Some(v) => if v != [] then v else url
        case None => url
  }

  /** The copy follows the library's rule on every input. */
  lemma ExtractVideoIdAsLibrary(url: string)
    ensures ExtractVideoId(url) == YouTube.ExtractVideoId(url)
  {
  }

  /** The scratch paths, stamped with a clock reading. */
  function InputPath(now: nat): string {
    TmpDir + "/input-" + NatToString(now) + ".mp4"
  }

  function OutputPath(now: nat): string {
    TmpDir + "/short-" + NatToString(now) + ".mp4"
  }

  /** An input scratch path is never an output scratch path, and each clock reading has its own
      input path. */
  lemma ScratchPaths(a: nat, b: nat)
    ensures InputPath(a) != OutputPath(b)
    ensures InputPath(a) == InputPath(b) ==> a == b
  {
    assert InputPath(a)[5] == 'i' && OutputPath(b)[5] == 's';
    if InputPath(a) == InputPath(b) {
      var p := TmpDir + "/input-";
      assert NatToString(a) + ".mp4" == InputPath(a)[|p|..] by {
        assert InputPath(a) == p + (NatToString(a) + ".mp4");
      }
      assert NatToString(b) + ".mp4" == InputPath(b)[|p|..] by {
        assert InputPath(b) == p + (NatToString(b) + ".mp4");
      }
      DigitsBeforeSuffix(NatToString(a), NatToString(b), ".mp4");
      NatToStringInjective(a, b);
    }
  }

  /** Two digit strings followed by the same non-digit suffix are equal when the texts are. */
  lemma DigitsBeforeSuffix(x: string, y: string, suffix: string)
    requires AllDigits(x) && AllDigits(y) && suffix != [] && !IsDigit(suffix[0])
    requires x + suffix == y + suffix
    ensures x == y
  {
    assert forall c | c in x :: IsDigit(c);
    assert forall c | c in y :: IsDigit(c);
    SpanAppend(x, suffix, IsDigit);
    SpanAppend(y, suffix, IsDigit);
    SpanIs(suffix, IsDigit, 0);
    assert (x + suffix)[..|x|] == x && (y + suffix)[..|y|] == y;
  }

  const DestPrefix := "shorts/"
  const DestSuffix := ".mp4"

  /** The object name of the uploaded short: the clock reading and the first 50 characters of the
      title. */
  function DestName(now: nat, title: string): string {
    DestPrefix + (NatToString(now) + "-" + TakeFirst(title, TitleLimit)) + DestSuffix
  }

  /** Reading an object name back into the clock reading and the title prefix. */
  function ParseDestName(name: string): Option<(nat, string)> {
    if |name| < |DestPrefix| + |DestSuffix| || name[..|DestPrefix|] != DestPrefix
       || name[|name| - |DestSuffix|..] != DestSuffix then None
    else
      var body := name[|DestPrefix|..|name| - |DestSuffix|];
      var n := Span(body, IsDigit);
      if n == 0 || n == |body| || body[n] != '-' || (n > 1 && body[0] == '0') then None
      else Some((DecimalValue(body[..n]), body[n + 1..]))
  }

  /** The object name keeps the clock reading and the title prefix, which is at most 50
      characters long: reading the name back gives both. */
  lemma DestNameRoundTrip(now: nat, title: string)
    ensures ParseDestName(DestName(now, title)) == Some((now, TakeFirst(title, TitleLimit)))
    ensures |TakeFirst(title, TitleLimit)| <= TitleLimit
  {
    var digits := NatToString(now);
    var t := TakeFirst(title, TitleLimit);
    SplitThree(DestPrefix, digits + "-" + t, DestSuffix);
    DecimalRoundTrip(now);
    DigitsThenDash(digits, t);
  }

  /** `<digits>-<t>` splits at its first non-digit, the dash. */
  lemma DigitsThenDash(digits: string, t: string)
    requires AllDigits(digits)
    ensures var body := digits + "-" + t;
      Span(body, IsDigit) == |digits| && body[|digits|] == '-'
      && body[..|digits|] == digits && body[|digits| + 1..] == t
  {
    var body := digits + "-" + t;
    assert body == digits + ("-" + t);
    assert forall c | c in digits :: IsDigit(c);
    SpanAppend(digits, "-" + t, IsDigit);
    SpanIs("-" + t, IsDigit, 0);
  }

  /** The signed link's expiry: a day after the clock reading. */
  function Expiry(now: nat): nat {
    now + SignedUrlLifetimeMs
  }

  /** How the bucket answers: the upload, then the signing of the read link. */
  datatype Bucket = Bucket(upload: Outcome<string>, signedUrl: Result<string, string>)

  /** The requests made of the bucket. */
  datatype BucketCall =
    | Upload(localPath: string, destination: string, contentType: string)
    | Sign(destination: string, action: string, expires: nat)

  /** `uploadToGCS(localPath, destName)` with the clock reading `now` for the expiry. */
  function UploadToGcs(localPath: string, destName: string, now: nat, b: Bucket)
    : (Result<string, string>, seq<BucketCall>)
  {
    var put := [Upload(localPath, destName, "video/mp4")];
    match b.upload
    case Fail(e) => (Failure(e), put)
    case Pass => (b.signedUrl, put + [Sign(destName, "read", Expiry(now))])
  }

  /** A link is returned only after the file went up under `destName` as `video/mp4` and a read
      link for that same object was signed to expire 86400000 ms after `now`; no link is signed
      for a failed upload. */
  lemma UploadRules(localPath: string, destName: string, now: nat, b: Bucket)
    ensures var (r, calls) := UploadToGcs(localPath, destName, now, b);
      (r.Success? ==>
         calls == [Upload(localPath, destName, "video/mp4"), Sign(destName, "read", now + 86400000)]
         && r.value == b.signedUrl.value)
      && (b.upload.Fail? ==> r == Failure(b.upload.error) && |calls| == 1 && calls[0].Upload?)
  {
  }

  /** What `downloadVideo` hands back. */
  datatype Downloaded = Downloaded(tmpPath: string, title: string)

  /** Files a step creates and paths it deletes: afterwards the disk holds
      `(before + created) - removed`. */
  datatype DiskEffect = DiskEffect(created: set<string>, removed: set<string>)

  /** `downloadVideo(url)` as a value. Once the download stream exists, the write stream creates the
      scratch file; a failed transfer leaves it there. With `cleanPartial` (not what the source
      does) the partial file is deleted before the error propagates. */
  function DownloadStep(cached: bool, url: string, now: nat, net: Network, transfer: Outcome<string>,
                        cleanPartial: bool): (Result<Downloaded, string>, seq<Call>, DiskEffect)
  {
    var (a, calls) := Retrieval.Attempted(cached, net, ExtractVideoId(url), Fallback, Tier);
    match a
    case Failure(e) => (Failure(e), calls, DiskEffect({}, {}))
    case Success(f) =>
      var tmp := InputPath(now);
      match transfer
      case Pass => (Success(Downloaded(tmp, f.title)), calls, DiskEffect({tmp}, {}))
      case Fail(e) => (Failure(e), calls, DiskEffect({tmp}, if cleanPartial then {tmp} else {}))
  }

  method DownloadVideo(svc: ServiceClient, disk: Disk, url: string, now: nat, net: Network,
                       transfer: Outcome<string>, cleanPartial: bool)
    returns (r: Result<Downloaded, string>, ghost calls: seq<Call>)
    modifies svc, disk
    ensures var (res, cs, eff) := DownloadStep(old(svc.innertube).Some?, url, now, net, transfer, cleanPartial);
      r == res && calls == cs && disk.files == (old(disk.files) + eff.created) - eff.removed
    ensures old(svc.innertube).Some? || net.create.Failure? ==> svc.innertube == old(svc.innertube)
    ensures old(svc.innertube).None? && net.create.Success? ==> svc.innertube == Some(net.create.value)
  {
    ghost var reuse := svc.innertube.Some?;
    calls := if reuse then [] else [Create];
    var client := svc.GetYoutubeClient(net.create);
    if client.Failure? {
      return Failure(client.error), calls;
    }
    var videoId := ExtractVideoId(url);
    calls := calls + [BasicInfo(videoId)];
    if net.basicInfo.Failure? {
      return Failure(net.basicInfo.error), calls;
    }
    var info := net.basicInfo.value;
    calls := calls + [Download(DownloadOptions(Retrieval.DownloadKind, Tier))];
    if net.download.Failure? {
      return Failure(net.download.error), calls;
    }
    var tmpPath := InputPath(now);
    disk.Create(tmpPath);
    match transfer {
      case Fail(e) =>
        if cleanPartial {
          disk.Unlink(tmpPath);
        }
        r := Failure(e);
      case Pass =>
        r := Success(Downloaded(tmpPath, Derive(info.title, Fallback)));
    }
  }

  /** The paths among `paths` that were assigned. */
  function Recorded(paths: seq<Option<string>>): set<string> {
    set i | 0 <= i < |paths| && paths[i].Some? :: paths[i].value
  }

  /** The assigned paths of the pair the handler records. */
  lemma RecordedPair(a: Option<string>, b: Option<string>)
    ensures Recorded([a, b]) == (if a.Some? then {a.value} else {}) + (if b.Some? then {b.value} else {})
  {
    var both := (if a.Some? then {a.value} else {}) + (if b.Some? then {b.value} else {});
    forall p | p in both ensures p in Recorded([a, b]) {
      if a.Some? && p == a.value {
        assert [a, b][0] == a;
      } else {
        assert [a, b][1] == b;
      }
    }
  }

  /** The `finally` block: each assigned path that exists is deleted. */
  method Cleanup(disk: Disk, paths: seq<Option<string>>)
    modifies disk
    ensures disk.files == old(disk.files) - Recorded(paths)
  {
    for i := 0 to |paths|
      invariant disk.files == old(disk.files) - Recorded(paths[..i])
    {
      assert Recorded(paths[..i + 1])
        == Recorded(paths[..i]) + (if paths[i].Some? then {paths[i].value} else {});
      match paths[i] {
        case Some(p) =>
          if disk.Exists(p) {
            disk.Unlink(p);
          }
        case None =>
      }
    }
    assert paths[..|paths|] == paths;
  }

  /** The JSON body of `/convert`. */
  datatype ConvertBody = ConvertBody(url: Option<string>, start: Option<nat>, duration: Option<nat>)

  /** Everything outside the service during one request: the library, the transfer to the scratch
      file, the clock readings (scratch input, scratch output, object name, expiry), ffmpeg and the
      bucket. */
  datatype ConvertWorld = ConvertWorld(
    net: Network, transfer: Outcome<string>,
    inputClock: nat, outputClock: nat, destClock: nat, expiryClock: nat,
    ffmpeg: Run, bucket: Bucket)

  /** What one request does: its reply, its library calls, the command line ffmpeg was given
      (if it ran), the requests made of the bucket and its effect on the disk. */
  datatype Conversion = Conversion(reply: Reply, calls: seq<Call>, ffmpegArgs: Option<seq<string>>,
                                   bucketCalls: seq<BucketCall>, effect: DiskEffect)

  /** `err.message || 'Conversion failed'`. */
  function ErrorMessage(message: string): string {
    if message == [] then DefaultErrorMessage else message
  }

  /** `{ success: true, downloadUrl, title }`. */
  function SuccessBody(downloadUrl: string, title: string): Json {
    JObj(map["success" := JBool(true), "downloadUrl" := JStr(downloadUrl), "title" := JStr(title)])
  }

  /** What follows a successful download: the reply, whether ffmpeg left the output file on
      disk, the command line ffmpeg was given and the requests made of the bucket. */
  datatype Finish = Finish(reply: Reply, wrote: bool, args: seq<string>, bucketCalls: seq<BucketCall>)

  /** The steps after the download as a value: ffmpeg cuts the requested window of the scratch
      input into the output path, and only when it succeeds is the output uploaded. */
  function Finished(dl: Downloaded, body: ConvertBody, w: ConvertWorld): Finish {
    var output := OutputPath(w.outputClock);
    var options := Options(body.start, body.duration);
    var args := Args(dl.tmpPath, output, StartOf(options), DurationOf(options));
    var settled := Settle(w.ffmpeg.end, Concat(w.ffmpeg.chunks));
    var wrote := Wrote(w.ffmpeg);
    match settled
    case Fail(e) => Finish(ErrorReply(500, ErrorMessage(e)), wrote, args, [])
    case Pass =>
      var (upload, bucketCalls) := UploadToGcs(output, DestName(w.destClock, dl.title), w.expiryClock, w.bucket);
      match upload
      case Failure(e) => Finish(ErrorReply(500, ErrorMessage(e)), wrote, args, bucketCalls)
      case Success(link) => Finish(JsonReply(200, [], SuccessBody(link, dl.title)), wrote, args, bucketCalls)
  }

  /** `POST /convert` as a value. */
  function Converted(cached: bool, body: ConvertBody, w: ConvertWorld, cleanPartial: bool): Conversion {
    if Absent(body.url) then Conversion(ErrorReply(400, MissingUrlMessage), [], None, [], DiskEffect({}, {}))
    else
      var (d, calls, eff) := DownloadStep(cached, body.url.value, w.inputClock, w.net, w.transfer, cleanPartial);
      match d
      case Failure(e) => Conversion(ErrorReply(500, ErrorMessage(e)), calls, None, [], eff)
      case Success(dl) =>
        var output := OutputPath(w.outputClock);
        var f := Finished(dl, body, w);
        var made := eff.created + (if f.wrote then {output} else {});
        Conversion(f.reply, calls, Some(f.args), f.bucketCalls, DiskEffect(made, eff.removed + {dl.tmpPath, output}))
  }

  /** The steps after the download: the conversion into the output path, then the upload. */
  method ConvertDownloaded(disk: Disk, dl: Downloaded, body: ConvertBody, w: ConvertWorld)
    returns (reply: Reply, ghost args: seq<string>, ghost bucketCalls: seq<BucketCall>)
    modifies disk
    ensures var f := Finished(dl, body, w);
      reply == f.reply && args == f.args && bucketCalls == f.bucketCalls
      && disk.files == old(disk.files) + (if f.wrote then {OutputPath(w.outputClock)} else {})
  {
    var outputPath := OutputPath(w.outputClock);
    var c;
    c, args := ConvertToShort(disk, dl.tmpPath, outputPath, Options(body.start, body.duration), w.ffmpeg);
    bucketCalls := [];
    match c {
      case Fail(e) =>
        reply := ErrorReply(500, ErrorMessage(e));
      case Pass =>
        var destName := DestName(w.destClock, dl.title);
        var (upload, put) := UploadToGcs(outputPath, destName, w.expiryClock, w.bucket);
        bucketCalls := put;
        match upload {
          case Failure(e) =>
            reply := ErrorReply(500, ErrorMessage(e));
          case Success(link) =>
            reply := JsonReply(200, [], SuccessBody(link, dl.title));
        }
    }
  }

  /** The service's client after one request: the first request past validation whose build
      succeeds stores it, and it is kept for good. */
  function ClientAfter(innertube: Option<Client>, body: ConvertBody, net: Network): Option<Client> {
    if Absent(body.url) || innertube.Some? || net.create.Failure? then innertube
    else Some(net.create.value)
  }

  method ConvertWith(svc: ServiceClient, disk: Disk, body: ConvertBody, w: ConvertWorld,
                     cleanPartial: bool)
    returns (reply: Reply, ghost calls: seq<Call>, ghost ffmpegArgs: Option<seq<string>>,
             ghost bucketCalls: seq<BucketCall>)
    modifies svc, disk
    ensures var run := Converted(old(svc.innertube).Some?, body, w, cleanPartial);
      reply == run.reply && calls == run.calls && ffmpegArgs == run.ffmpegArgs
      && bucketCalls == run.bucketCalls
      && disk.files == (old(disk.files) + run.effect.created) - run.effect.removed
    ensures svc.innertube == ClientAfter(old(svc.innertube), body, w.net)
  {
    if Absent(body.url) {
      return ErrorReply(400, MissingUrlMessage), [], None, [];
    }
    ghost var before := disk.files;
    ghost var run := Converted(svc.innertube.Some?, body, w, cleanPartial);
    ghost var step := DownloadStep(svc.innertube.Some?, body.url.value, w.inputClock, w.net, w.transfer, cleanPartial);
    var inputPath: Option<string> := None;
    var outputPath: Option<string> := None;
    ffmpegArgs, bucketCalls := None, [];
    var d;
    d, calls := DownloadVideo(svc, disk, body.url.value, w.inputClock, w.net, w.transfer, cleanPartial);
    assert svc.innertube == ClientAfter(old(svc.innertube), body, w.net);
    match d {
      case Failure(e) =>
        reply := ErrorReply(500, ErrorMessage(e));
        assert run == Conversion(reply, calls, None, [], step.2);
      case Success(dl) =>
        inputPath := Some(dl.tmpPath);
        outputPath := Some(OutputPath(w.outputClock));
        assert step.2 == DiskEffect({dl.tmpPath}, {});
        ghost var args;
        reply, args, bucketCalls := ConvertDownloaded(disk, dl, body, w);
        ffmpegArgs := Some(args);
        assert run.reply == reply && run.calls == calls;
        assert disk.files - {dl.tmpPath, OutputPath(w.outputClock)}
          == (before + run.effect.created) - run.effect.removed;
    }
    RecordedPair(inputPath, outputPath);
    Cleanup(disk, [inputPath, outputPath]);
  }

  /** `POST /convert` as written. */
  method Convert(svc: ServiceClient, disk: Disk, body: ConvertBody, w: ConvertWorld)
    returns (reply: Reply, ghost calls: seq<Call>, ghost ffmpegArgs: Option<seq<string>>,
             ghost bucketCalls: seq<BucketCall>)
    modifies svc, disk
    ensures var run := Converted(old(svc.innertube).Some?, body, w, false);
      reply == run.reply && calls == run.calls && ffmpegArgs == run.ffmpegArgs
      && bucketCalls == run.bucketCalls
      && disk.files == (old(disk.files) + run.effect.created) - run.effect.removed
    ensures svc.innertube == ClientAfter(old(svc.innertube), body, w.net)
  {
    reply, calls, ffmpegArgs, bucketCalls := ConvertWith(svc, disk, body, w, false);
  }

  /** `POST /convert` with the partial input deleted when the transfer fails. */
  method ConvertLeakFree(svc: ServiceClient, disk: Disk, body: ConvertBody, w: ConvertWorld)
    returns (reply: Reply, ghost calls: seq<Call>, ghost ffmpegArgs: Option<seq<string>>,
             ghost bucketCalls: seq<BucketCall>)
    modifies svc, disk
    ensures var run := Converted(old(svc.innertube).Some?, body, w, true);
      reply == run.reply && calls == run.calls && ffmpegArgs == run.ffmpegArgs
      && bucketCalls == run.bucketCalls
      && disk.files == (old(disk.files) + run.effect.created) - run.effect.removed
    ensures svc.innertube == ClientAfter(old(svc.innertube), body, w.net)
    ensures disk.files <= old(disk.files)
  {
    ghost var cached := svc.innertube.Some?;
    ghost var before := disk.files;
    reply, calls, ffmpegArgs, bucketCalls := ConvertWith(svc, disk, body, w, true);
    ghost var e := Converted(cached, body, w, true).effect;
    assert disk.files == (before + e.created) - e.removed;
    NoScratchFileSurvives(cached, body, w);
  }

  /** Every stage of a conversion succeeds. */
  predicate StagesOk(cached: bool, w: ConvertWorld) {
    Retrieval.AttemptOk(cached, w.net) && w.transfer.Pass? && w.ffmpeg.end == Closed(Some(0))
    && w.bucket.upload.Pass? && w.bucket.signedUrl.Success?
  }

  /** The service's answers: 400 exactly for a falsy `url`, and then no library call and no file;
      200 exactly when every stage succeeds, with the signed link and the sanitised title
      (fallback `short`); otherwise 500 with a non-empty message. */
  lemma ConvertRules(cached: bool, body: ConvertBody, w: ConvertWorld, cleanPartial: bool)
    ensures var run := Converted(cached, body, w, cleanPartial);
      (run.reply.status == 400 <==> Absent(body.url))
      && (Absent(body.url) ==>
            run.reply == ErrorReply(400, MissingUrlMessage) && run.calls == []
            && run.effect == DiskEffect({}, {}))
      && (run.reply.status == 200 <==> !Absent(body.url) && StagesOk(cached, w))
      && (run.reply.status == 200 ==>
            run.reply == JsonReply(200, [], SuccessBody(w.bucket.signedUrl.value,
                                                        Derive(w.net.basicInfo.value.title, Fallback))))
      && (run.reply.status != 200 && run.reply.status != 400 ==>
            run.reply.status == 500
            && exists m :: m != [] && run.reply == ErrorReply(500, m))
  {
    if !Absent(body.url) {
      var url := body.url.value;
      Retrieval.AttemptOutcome(cached, w.net, ExtractVideoId(url), Fallback, Tier);
      SettleRules(w.ffmpeg.end, Concat(w.ffmpeg.chunks));
      var run := Converted(cached, body, w, cleanPartial);
      if run.reply.status == 500 {
        var m :| run.reply == ErrorReply(500, ErrorMessage(m));
        assert ErrorMessage(m) != [];
      }
    }
  }

  /** What ffmpeg and the bucket are asked for. Nothing before the video is on disk. Then ffmpeg
      cuts the requested window (`start` 0 and `duration` 60 when missing) from the scratch input
      into the scratch output. Only a successful ffmpeg run is followed by the upload of that
      output as `video/mp4`, under the object name built from the clock and the title. Only a
      successful upload is followed by the signing of a read link for the same object, expiring
      86400000 ms after the clock reading. */
  lemma ConvertCommands(cached: bool, body: ConvertBody, w: ConvertWorld, cleanPartial: bool)
    ensures var run := Converted(cached, body, w, cleanPartial);
      (Absent(body.url) || !Retrieval.AttemptOk(cached, w.net) || w.transfer.Fail? ==>
         run.ffmpegArgs == None && run.bucketCalls == [])
      && (!Absent(body.url) && Retrieval.AttemptOk(cached, w.net) && w.transfer.Pass? ==>
            var dest := DestName(w.destClock, Derive(w.net.basicInfo.value.title, Fallback));
            run.ffmpegArgs == Some(Args(InputPath(w.inputClock), OutputPath(w.outputClock),
                                        body.start.GetOr(0), body.duration.GetOr(60)))
            && run.bucketCalls
               == (if w.ffmpeg.end != Closed(Some(0)) then []
                   else [Upload(OutputPath(w.outputClock), dest, "video/mp4")]
                        + (if w.bucket.upload.Pass? then [Sign(dest, "read", w.expiryClock + 86400000)]
                           else [])))
  {
    if !Absent(body.url) {
      Retrieval.AttemptOutcome(cached, w.net, ExtractVideoId(body.url.value), Fallback, Tier);
      if Retrieval.AttemptOk(cached, w.net) && w.transfer.Pass? {
        FinishedCommands(Downloaded(InputPath(w.inputClock), Derive(w.net.basicInfo.value.title, Fallback)), body, w);
      }
    }
  }

  /** After a download, ffmpeg is given the requested window of the scratch input, and the
      bucket is asked to store and then sign the output only as far as the earlier stages
      succeed. */
  lemma FinishedCommands(dl: Downloaded, body: ConvertBody, w: ConvertWorld)
    ensures var f := Finished(dl, body, w);
      var dest := DestName(w.destClock, dl.title);
      f.args == Args(dl.tmpPath, OutputPath(w.outputClock), body.start.GetOr(0), body.duration.GetOr(60))
      && f.bucketCalls
         == (if w.ffmpeg.end != Closed(Some(0)) then []
             else [Upload(OutputPath(w.outputClock), dest, "video/mp4")]
                  + (if w.bucket.upload.Pass? then [Sign(dest, "read", w.expiryClock + 86400000)] else []))
  {
    SettleRules(w.ffmpeg.end, Concat(w.ffmpeg.chunks));
  }

  /** A 200 means that ffmpeg was given the requested window of this request's scratch input,
      and that its output was uploaded under the object name of the title and then signed. */
  lemma ConvertSucceededCommands(cached: bool, body: ConvertBody, w: ConvertWorld, cleanPartial: bool)
    requires Converted(cached, body, w, cleanPartial).reply.status == 200
    ensures var run := Converted(cached, body, w, cleanPartial);
      var dest := DestName(w.destClock, Derive(w.net.basicInfo.value.title, Fallback));
      run.ffmpegArgs == Some(Args(InputPath(w.inputClock), OutputPath(w.outputClock),
                                  body.start.GetOr(0), body.duration.GetOr(60)))
      && run.bucketCalls == [Upload(OutputPath(w.outputClock), dest, "video/mp4"),
                             Sign(dest, "read", w.expiryClock + 86400000)]
  {
    ConvertRules(cached, body, w, cleanPartial);
    ConvertCommands(cached, body, w, cleanPartial);
  }

  /** Once the video has been written to the scratch file, both scratch paths are recorded and
      deleted, whether ffmpeg or the upload then fails or not. */
  lemma RecordedPathsCleaned(cached: bool, body: ConvertBody, w: ConvertWorld, cleanPartial: bool)
    requires !Absent(body.url) && Retrieval.AttemptOk(cached, w.net) && w.transfer.Pass?
    ensures var e := Converted(cached, body, w, cleanPartial).effect;
      InputPath(w.inputClock) in e.removed && OutputPath(w.outputClock) in e.removed
      && e.created <= e.removed
  {
    Retrieval.AttemptOutcome(cached, w.net, ExtractVideoId(body.url.value), Fallback, Tier);
  }

  /** As written, a transfer that fails after the write stream was opened leaves the partial
      `/tmp/input-<now>.mp4` on the disk: it was never assigned to `inputPath`, so the `finally`
      block does not see it. */
  lemma PartialInputLeaks(cached: bool, body: ConvertBody, w: ConvertWorld)
    requires !Absent(body.url) && Retrieval.AttemptOk(cached, w.net) && w.transfer.Fail?
    ensures var e := Converted(cached, body, w, false).effect;
      InputPath(w.inputClock) in e.created && InputPath(w.inputClock) !in e.removed
  {
    Retrieval.AttemptOutcome(cached, w.net, ExtractVideoId(body.url.value), Fallback, Tier);
  }

  /** With the partial input deleted on a failed transfer, every file a request creates is
      deleted before it answers, whatever fails. */
  lemma NoScratchFileSurvives(cached: bool, body: ConvertBody, w: ConvertWorld)
    ensures var e := Converted(cached, body, w, true).effect; e.created <= e.removed
  {
    if !Absent(body.url) {
      Retrieval.AttemptOutcome(cached, w.net, ExtractVideoId(body.url.value), Fallback, Tier);
    }
  }
}
