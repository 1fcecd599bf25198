/** api/downloadmp4.js: the MP4 download route. */
module DownloadMp4 {
  import opened Wrappers
  import opened Web
  import opened Innertube
  import opened Title
  import opened YouTube
  import opened Retrieval

  const Mp4 := Endpoint("video", "mp4", "video/mp4", "Failed to download video")

  /** `fetchVideo(videoId, quality)`: one attempt with the title default `video` and the tier
      that `quality` selects. */
  method FetchVideo(cache: ClientCache, videoId: string, quality: Option<string>, at: Attempt)
    returns (r: Result<Fetched, string>, ghost calls: seq<Call>)
    modifies cache
    ensures (r, calls) == Attempted(old(Reusable(cache.innertube, cache.createdAt, at.now)), at.net,
                                    videoId, "video", QualityTier(quality))
    ensures (cache.innertube, cache.createdAt) == CacheAfterAttempt(old(cache.innertube), old(cache.createdAt), at)
  {
    r, calls := Fetch(cache, videoId, Mp4.fallback, QualityTier(quality), at);
  }

  /** The exported handler, given the `URL` and `Quality` query parameters. */
  method Handle(cache: ClientCache, url: Option<string>, quality: Option<string>, first: Attempt,
                second: Attempt) returns (reply: Reply, ghost calls: seq<Call>)
    modifies cache
    ensures (reply, calls) == Served(Mp4, old(Reusable(cache.innertube, cache.createdAt, first.now)),
                                     url, QualityTier(quality), first.net, second.net)
    ensures (cache.innertube, cache.createdAt)
      == CacheAfterServe(old(cache.innertube), old(cache.createdAt), url, first, second)
  {
    reply, calls := Serve(cache, Mp4, url, QualityTier(quality), first, second);
  }

  /** The route's replies: 400 exactly without `URL`; 500 with `Failed to download video`; 200
      with a clean `<title>.mp4` and `video/mp4`. */
  lemma Mp4Replies(reuse: bool, url: Option<string>, tier: string, first: Network, second: Network)
    ensures var reply := Served(Mp4, reuse, url, tier, first, second).0;
      (reply.status == 400 <==> Absent(url))
      && (reply.status == 500 ==> reply == ErrorReply(500, "Failed to download video"))
      && (reply.status == 200 ==>
            (exists t :: IsClean(t) && FilenameOf(reply.headers[0].value) == Some(t + ".mp4"))
            && reply.headers[1] == Header("Content-Type", "video/mp4"))
  {
    ServedRules(Mp4, reuse, url, tier, first, second);
    ServedFile(Mp4, reuse, url, tier, first, second, ".mp4");
  }

  /** Every download asks for `video+audio`, in the best tier exactly when `Quality` is `high`. */
  lemma Mp4Downloads(reuse: bool, url: Option<string>, quality: Option<string>, first: Network,
                     second: Network)
    ensures var calls := Served(Mp4, reuse, url, QualityTier(quality), first, second).1;
      forall c | c in calls :: c.Download? ==>
        c.options.kind == "video+audio" && (c.options.quality == "best" <==> quality == Some("high"))
  {
    var tier := QualityTier(quality);
    var calls := Served(Mp4, reuse, url, tier, first, second).1;
    ServedRules(Mp4, reuse, url, tier, first, second);
    QualityTierChoice(quality);
    forall c | c in calls && c.Download?
      ensures c.options.kind == "video+audio" && (c.options.quality == "best" <==> quality == Some("high"))
    {
      assert c.options == DownloadOptions(DownloadKind, tier);
    }
  }

  /** The route's rules: 400 exactly without `URL`; 200 with the `.mp4` file name and `video/mp4`,
      or 500 `Failed to download video`; downloads in the best tier exactly when `Quality` is
      `high`. */
  lemma Mp4Rules(reuse: bool, url: Option<string>, quality: Option<string>, first: Network,
                 second: Network)
    ensures var (reply, calls) := Served(Mp4, reuse, url, QualityTier(quality), first, second);
      (reply.status == 400 <==> Absent(url))
      && (reply.status == 500 ==> reply == ErrorReply(500, "Failed to download video"))
      && (reply.status == 200 ==>
            (exists t :: IsClean(t) && FilenameOf(reply.headers[0].value) == Some(t + ".mp4"))
            && reply.headers[1] == Header("Content-Type", "video/mp4"))
      && (forall c | c in calls :: c.Download? ==>
            c.options.kind == "video+audio" && (c.options.quality == "best" <==> quality == Some("high")))
  {
    Mp4Replies(reuse, url, QualityTier(quality), first, second);
    Mp4Downloads(reuse, url, quality, first, second);
  }

  /** A video that the library reports without a title is saved as `video.mp4`. */
  lemma UntitledVideo(reuse: bool, url: Option<string>, quality: Option<string>, first: Network,
                      second: Network)
    requires !Absent(url) && AttemptOk(reuse, first) && first.basicInfo.value.title.None?
    ensures var reply := Served(Mp4, reuse, url, QualityTier(quality), first, second).0;
      reply.status == 200 && FilenameOf(reply.headers[0].value) == Some("video.mp4")
  {
    UntitledServed(Mp4, reuse, url, QualityTier(quality), first, second, "video.mp4");
  }
}
