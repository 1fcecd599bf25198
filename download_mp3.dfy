/** api/downloadmp3.js: the MP3 download route. The file is the `video+audio` stream of the
    efficient tier, named `.mp3` and typed `audio/mpeg`; nothing is transcoded. */
module DownloadMp3 {
  import opened Wrappers
  import opened Web
  import opened Innertube
  import opened Title
  import opened YouTube
  import opened Retrieval

  const Mp3 := Endpoint("audio", "mp3", "audio/mpeg", "Failed to download audio")

  const AudioTier := "bestefficiency"

  /** `fetchAudio(videoId)`: one attempt with the title default `audio`, always in the efficient
      tier. */
  method FetchAudio(cache: ClientCache, videoId: string, at: Attempt)
    returns (r: Result<Fetched, string>, ghost calls: seq<Call>)
    modifies cache
    ensures (r, calls) == Attempted(old(Reusable(cache.innertube, cache.createdAt, at.now)), at.net,
                                    videoId, "audio", "bestefficiency")
    ensures (cache.innertube, cache.createdAt) == CacheAfterAttempt(old(cache.innertube), old(cache.createdAt), at)
  {
    r, calls := Fetch(cache, videoId, Mp3.fallback, AudioTier, at);
  }

  /** The exported handler, given the `URL` query parameter. */
  method Handle(cache: ClientCache, url: Option<string>, first: Attempt, second: Attempt)
    returns (reply: Reply, ghost calls: seq<Call>)
    modifies cache
    ensures (reply, calls) == Served(Mp3, old(Reusable(cache.innertube, cache.createdAt, first.now)),
                                     url, AudioTier, first.net, second.net)
    ensures (cache.innertube, cache.createdAt)
      == CacheAfterServe(old(cache.innertube), old(cache.createdAt), url, first, second)
  {
    reply, calls := Serve(cache, Mp3, url, AudioTier, first, second);
  }

  /** The route's replies: 400 exactly without `URL`; 500 with `Failed to download audio`; 200
      with a clean `<title>.mp3` and `audio/mpeg`. */
  lemma Mp3Replies(reuse: bool, url: Option<string>, first: Network, second: Network)
    ensures var reply := Served(Mp3, reuse, url, AudioTier, first, second).0;
      (reply.status == 400 <==> Absent(url))
      && (reply.status == 500 ==> reply == ErrorReply(500, "Failed to download audio"))
      && (reply.status == 200 ==>
            (exists t :: IsClean(t) && FilenameOf(reply.headers[0].value) == Some(t + ".mp3"))
            && reply.headers[1] == Header("Content-Type", "audio/mpeg"))
  {
    ServedRules(Mp3, reuse, url, AudioTier, first, second);
    ServedFile(Mp3, reuse, url, AudioTier, first, second, ".mp3");
  }

  /** The route's rules: 400 exactly without `URL`; 200 with the `.mp3` file name and
      `audio/mpeg`, or 500 `Failed to download audio`; every download is `video+audio` in the
      efficient tier. */
  lemma Mp3Rules(reuse: bool, url: Option<string>, first: Network, second: Network)
    ensures var (reply, calls) := Served(Mp3, reuse, url, AudioTier, first, second);
      (reply.status == 400 <==> Absent(url))
      && (reply.status == 500 ==> reply == ErrorReply(500, "Failed to download audio"))
      && (reply.status == 200 ==>
            (exists t :: IsClean(t) && FilenameOf(reply.headers[0].value) == Some(t + ".mp3"))
            && reply.headers[1] == Header("Content-Type", "audio/mpeg"))
      && (forall c | c in calls :: c.Download? ==>
            c.options == DownloadOptions("video+audio", "bestefficiency"))
  {
    Mp3Replies(reuse, url, first, second);
    ServedRules(Mp3, reuse, url, AudioTier, first, second);
  }

  /** A video that the library reports without a title is saved as `audio.mp3`. */
  lemma UntitledAudio(reuse: bool, url: Option<string>, first: Network, second: Network)
    requires !Absent(url) && AttemptOk(reuse, first) && first.basicInfo.value.title.None?
    ensures var reply := Served(Mp3, reuse, url, AudioTier, first, second).0;
      reply.status == 200 && FilenameOf(reply.headers[0].value) == Some("audio.mp3")
  {
    UntitledServed(Mp3, reuse, url, AudioTier, first, second, "audio.mp3");
  }
}
