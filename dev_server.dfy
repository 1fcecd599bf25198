/** server.js: the development server's two download routes, which share one `fetchVideo`. The
    MP3 route calls it without a quality, so it downloads in the efficient tier and falls back to
    the title `video`, not `audio`. */
module DevServer {
  import opened Wrappers
  import opened Web
  import opened Innertube
  import opened Title
  import opened YouTube
  import opened Retrieval
  import DownloadMp4
  import DownloadMp3

  const Mp4Route := Endpoint("video", "mp4", "video/mp4", "Failed to download video")

  const Mp3Route := Endpoint("video", "mp3", "audio/mpeg", "Failed to download audio")

  /** `fetchVideo(videoId, quality)`, with the title default `video`. */
  method FetchVideo(cache: ClientCache, videoId: string, quality: Option<string>, at: Attempt)
    returns (r: Result<Fetched, string>, ghost calls: seq<Call>)
    modifies cache
    ensures (r, calls) == Attempted(old(Reusable(cache.innertube, cache.createdAt, at.now)), at.net,
                                    videoId, "video", QualityTier(quality))
    ensures (cache.innertube, cache.createdAt) == CacheAfterAttempt(old(cache.innertube), old(cache.createdAt), at)
  {
    r, calls := Fetch(cache, videoId, "video", QualityTier(quality), at);
  }

  /** `GET /downloadmp4`. */
  method HandleMp4(cache: ClientCache, url: Option<string>, quality: Option<string>, first: Attempt,
                   second: Attempt) returns (reply: Reply, ghost calls: seq<Call>)
    modifies cache
    ensures (reply, calls) == Served(Mp4Route, old(Reusable(cache.innertube, cache.createdAt, first.now)),
                                     url, QualityTier(quality), first.net, second.net)
    ensures (cache.innertube, cache.createdAt)
      == CacheAfterServe(old(cache.innertube), old(cache.createdAt), url, first, second)
  {
    reply, calls := Serve(cache, Mp4Route, url, QualityTier(quality), first, second);
  }

  /** `GET /downloadmp3`: `fetchVideo(videoId)` with no quality. */
  method HandleMp3(cache: ClientCache, url: Option<string>, first: Attempt, second: Attempt)
    returns (reply: Reply, ghost calls: seq<Call>)
    modifies cache
    ensures (reply, calls) == Served(Mp3Route, old(Reusable(cache.innertube, cache.createdAt, first.now)),
                                     url, QualityTier(None), first.net, second.net)
    ensures (cache.innertube, cache.createdAt)
      == CacheAfterServe(old(cache.innertube), old(cache.createdAt), url, first, second)
  {
    reply, calls := Serve(cache, Mp3Route, url, QualityTier(None), first, second);
  }

  /** The development MP4 route answers exactly as the deployed one. */
  lemma Mp4RouteAsDeployed(reuse: bool, url: Option<string>, quality: Option<string>,
                           first: Network, second: Network)
    ensures Served(Mp4Route, reuse, url, QualityTier(quality), first, second)
      == Served(DownloadMp4.Mp4, reuse, url, QualityTier(quality), first, second)
  {
  }

  /** The development MP3 route: 400 exactly without `URL`, `audio/mpeg` or 500 `Failed to download
      audio`, and every download in the efficient tier, as deployed. */
  lemma Mp3RouteRules(reuse: bool, url: Option<string>, first: Network, second: Network)
    ensures var (reply, calls) := Served(Mp3Route, reuse, url, QualityTier(None), first, second);
      (reply.status == 400 <==> Absent(url))
      && (reply.status == 500 ==> reply == ErrorReply(500, "Failed to download audio"))
      && (reply.status == 200 ==> reply.headers[1] == Header("Content-Type", "audio/mpeg"))
      && (forall c | c in calls :: c.Download? ==>
            c.options == DownloadOptions("video+audio", "bestefficiency"))
      && calls == Served(DownloadMp3.Mp3, reuse, url, DownloadMp3.AudioTier, first, second).1
  {
    Mp3RouteCalls(reuse, url, first, second);
    ServedRules(Mp3Route, reuse, url, QualityTier(None), first, second);
  }

  /** The development MP3 route makes the same library calls as the deployed one. */
  lemma Mp3RouteCalls(reuse: bool, url: Option<string>, first: Network, second: Network)
    ensures Served(Mp3Route, reuse, url, QualityTier(None), first, second).1
      == Served(DownloadMp3.Mp3, reuse, url, DownloadMp3.AudioTier, first, second).1
  {
    assert QualityTier(None) == DownloadMp3.AudioTier;
    ServedCallsShared(Mp3Route, DownloadMp3.Mp3, reuse, url, DownloadMp3.AudioTier, first, second);
  }

  /** An untitled video is saved by this route as `video.mp3`. */
  lemma UntitledMp3(reuse: bool, url: Option<string>, first: Network, second: Network)
    requires !Absent(url) && AttemptOk(reuse, first) && first.basicInfo.value.title.None?
    ensures var reply := Served(Mp3Route, reuse, url, QualityTier(None), first, second).0;
      reply.status == 200 && FilenameOf(reply.headers[0].value) == Some("video.mp3")
  {
    UntitledServed(Mp3Route, reuse, url, QualityTier(None), first, second, "video.mp3");
  }

  /** Where the two MP3 routes differ: an untitled video is saved as `video.mp3` here and as
      `audio.mp3` by the deployed route. */
  lemma UntitledAudioDiffers(reuse: bool, url: Option<string>, first: Network, second: Network)
    requires !Absent(url) && AttemptOk(reuse, first) && first.basicInfo.value.title.None?
    ensures Served(Mp3Route, reuse, url, QualityTier(None), first, second).0
      != Served(DownloadMp3.Mp3, reuse, url, DownloadMp3.AudioTier, first, second).0
  {
    UntitledMp3(reuse, url, first, second);
    DownloadMp3.UntitledAudio(reuse, url, first, second);
  }
}
