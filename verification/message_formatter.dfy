/**
 * The TikTok parser's message formatter: one raw TikTok video record
 * becomes one message of the ingestion contract. JSON objects are records
 * whose fields are `Option`s; a missing sub-object (`stats`, `author`,
 * `music`, `video`, `authorStats`) reads as the empty object, so each field
 * taken from it is `None`. The clock reading and the ISO rendering of
 * instants are outside the model: the event time comes in already
 * rendered, and `published_at` is the creation instant itself.
 */
module MessageFormatter {
  import opened Wrappers
  import ApiClient
  import TrendFeed
  import Domain

  /** One `textExtra` entry: its `type` and its `hashtagName`. */
  datatype TextExtra = TextExtra(kind: Option<int>, hashtagName: Option<string>)

  datatype RawStats = RawStats(
    playCount: Option<int>,
    diggCount: Option<int>,
    commentCount: Option<int>,
    shareCount: Option<int>,
    collectCount: Option<int>)

  datatype RawAuthor = RawAuthor(uniqueId: Option<string>, nickname: Option<string>)

  /** The music object; `original` is `None` when the key is absent. */
  datatype RawMusic = RawMusic(title: Option<string>, original: Option<bool>)

  datatype RawVideoInfo = RawVideoInfo(duration: Option<int>)

  datatype RawAuthorStats = RawAuthorStats(followerCount: Option<int>)

  /** The raw record as the scraper hands it over. */
  datatype RawVideo = RawVideo(
    id: Option<string>,
    desc: Option<string>,
    createTime: Option<int>,
    stats: Option<RawStats>,
    author: Option<RawAuthor>,
    music: Option<RawMusic>,
    video: Option<RawVideoInfo>,
    authorStats: Option<RawAuthorStats>,
    textExtra: Option<seq<TextExtra>>)

  datatype MessageStats = MessageStats(
    views: Option<int>,
    likes: Option<int>,
    comments: Option<int>,
    shares: Option<int>,
    saves: Option<int>)

  datatype ContentMeta = ContentMeta(
    duration: Option<int>,
    hashtags: seq<string>,
    musicTitle: Option<string>,
    isOriginalSound: bool)

  datatype MessageAuthor = MessageAuthor(username: Option<string>, nickname: Option<string>, followerCount: Option<int>)

  datatype Payload = Payload(
    platformId: Option<string>,
    description: Option<string>,
    publishedAt: Option<int>,
    url: string,
    stats: MessageStats,
    contentMeta: ContentMeta,
    author: MessageAuthor)

  /** The message contract: source, event time, data type and payload. */
  datatype Message = Message(source: string, eventTime: string, dataType: string, payload: Payload)

  const Source: string := "tiktok"
  const VideoType: string := "video"
  const UrlHead: string := "https://www.tiktok.com/@"
  const VideoSeparator: string := "/video/"

  /** The empty objects a missing sub-object reads as. */
  const NoStats: RawStats := RawStats(None, None, None, None, None)
  const NoAuthor: RawAuthor := RawAuthor(None, None)
  const NoMusic: RawMusic := RawMusic(None, None)
  const NoVideoInfo: RawVideoInfo := RawVideoInfo(None)
  const NoAuthorStats: RawAuthorStats := RawAuthorStats(None)

  /** An entry is kept as a hashtag when its type is 1 and its name is truthy (present and non-empty). */
  predicate IsHashtag(e: TextExtra) {
    e.kind == Some(1) && e.hashtagName.Some? && e.hashtagName.value != ""
  }

  /** The hashtag comprehension: the names of the kept entries, in order. */
  function Hashtags(entries: seq<TextExtra>): (tags: seq<string>)
    ensures |tags| <= |entries|
    ensures forall t :: t in tags ==> t != "" && exists i :: 0 <= i < |entries| && IsHashtag(entries[i]) && entries[i].hashtagName.value == t
    ensures (forall i :: 0 <= i < |entries| ==> !IsHashtag(entries[i])) ==> tags == []
  {
    if entries == [] then []
    else
      var rest := Hashtags(entries[1..]);
      assert forall t :: t in rest ==> exists i :: 0 <= i < |entries| && IsHashtag(entries[i]) && entries[i].hashtagName.value == t by {
        forall t | t in rest
          ensures exists i :: 0 <= i < |entries| && IsHashtag(entries[i]) && entries[i].hashtagName.value == t
        {
          var j :| 0 <= j < |entries[1..]| && IsHashtag(entries[1..][j]) && entries[1..][j].hashtagName.value == t;
          assert entries[j + 1] == entries[1..][j];
        }
      }
      if IsHashtag(entries[0]) then [entries[0].hashtagName.value] + rest else rest
  }

  /** The comprehension keeps the order of the list: filtering a concatenation concatenates the filtered parts. */
  lemma {:induction false} HashtagsAppend(a: seq<TextExtra>, b: seq<TextExtra>)
    ensures Hashtags(a + b) == Hashtags(a) + Hashtags(b)
  {
    if a != [] {
      assert (a + b)[1..] == a[1..] + b;
      HashtagsAppend(a[1..], b);
    } else {
      assert a + b == b;
    }
  }

  /** One entry on its own contributes its name exactly when it is a hashtag. */
  lemma HashtagsSingle(e: TextExtra)
    ensures Hashtags([e]) == if IsHashtag(e) then [e.hashtagName.value] else []
  {
  }

  /** Python's f-string rendering of a possibly missing text: `None` renders as "None". */
  function Render(o: Option<string>): string {
    if o.Some? then o.value else "None"
  }

  /** The video URL from the author's unique id and the video id. */
  function VideoUrl(uniqueId: Option<string>, id: Option<string>): (url: string)
    ensures UrlHead <= url
  {
    UrlHead + Render(uniqueId) + VideoSeparator + Render(id)
  }

  /** The text before the first `c`, or all of `s` when it has none. */
  function TakeUntil(s: string, c: char): (r: string)
    ensures r <= s && c !in r
    ensures |r| < |s| ==> s[|r|] == c
  {
    if s == [] || s[0] == c then [] else [s[0]] + TakeUntil(s[1..], c)
  }

  lemma {:induction false} TakeUntilAppend(u: string, c: char, rest: string)
    requires c !in u
    ensures TakeUntil(u + [c] + rest, c) == u
  {
    if u != [] {
      assert (u + [c] + rest)[1..] == u[1..] + [c] + rest;
      TakeUntilAppend(u[1..], c, rest);
    }
  }

  /** Reads a video URL back into the rendered author id and video id. */
  function ParseVideoUrl(url: string): (parts: Option<(string, string)>)
    ensures parts.Some? ==> UrlHead <= url && '/' !in parts.value.0
  {
    if !(UrlHead <= url) then None
    else
      var tail := url[|UrlHead|..];
      var user := TakeUntil(tail, '/');
      var rest := tail[|user|..];
      if VideoSeparator <= rest then Some((user, rest[|VideoSeparator|..])) else None
  }

  /**
   * The URL carries both ids: as long as the rendered author id holds no
   * '/', reading the URL back gives the two rendered ids.
   */
  lemma VideoUrlRoundTrip(uniqueId: Option<string>, id: Option<string>)
    requires '/' !in Render(uniqueId)
    ensures ParseVideoUrl(VideoUrl(uniqueId, id)) == Some((Render(uniqueId), Render(id)))
  {
    var user, vid := Render(uniqueId), Render(id);
    var url := VideoUrl(uniqueId, id);
    var tail := url[|UrlHead|..];
    assert tail == user + VideoSeparator + vid;
    assert tail == user + ['/'] + ("video/" + vid);
    TakeUntilAppend(user, '/', "video/" + vid);
    assert tail[|user|..] == VideoSeparator + vid;
  }

  /** Different author/video id pairs without '/' in the author id never share a URL. */
  lemma VideoUrlInjective(u1: Option<string>, i1: Option<string>, u2: Option<string>, i2: Option<string>)
    requires '/' !in Render(u1) && '/' !in Render(u2)
    requires VideoUrl(u1, i1) == VideoUrl(u2, i2)
    ensures Render(u1) == Render(u2) && Render(i1) == Render(i2)
  {
    VideoUrlRoundTrip(u1, i1);
    VideoUrlRoundTrip(u2, i2);
  }

  /** A missing author id and the author id "None" render alike, so the URL does not tell them apart. */
  lemma MissingAuthorRendersAsNone(id: Option<string>)
    ensures VideoUrl(None, id) == VideoUrl(Some("None"), id)
  {
  }

  /** `published_at`: none when `createTime` is missing or 0, the creation instant otherwise. */
  function PublishedAt(createTime: Option<int>): (at: Option<int>)
    ensures at.None? <==> createTime.None? || createTime.value == 0
    ensures at.Some? ==> at == createTime
  {
    if createTime.Some? && createTime.value != 0 then createTime else None
  }

  /** `format_tiktok_message(video_data)` with the event time `now` already rendered. */
  function FormatTikTokMessage(v: RawVideo, now: string): (m: Message)
    ensures m.source == Source && m.dataType == VideoType && m.eventTime == now
    ensures m.payload.platformId == v.id && m.payload.description == v.desc
    ensures m.payload.publishedAt == PublishedAt(v.createTime)
    ensures m.payload.url == VideoUrl(v.author.GetOr(NoAuthor).uniqueId, v.id)
    ensures var s := v.stats.GetOr(NoStats);
      m.payload.stats == MessageStats(s.playCount, s.diggCount, s.commentCount, s.shareCount, s.collectCount)
    ensures m.payload.contentMeta.hashtags == Hashtags(v.textExtra.GetOr([]))
    ensures m.payload.contentMeta.duration == v.video.GetOr(NoVideoInfo).duration
    ensures m.payload.contentMeta.musicTitle == v.music.GetOr(NoMusic).title
    ensures m.payload.contentMeta.isOriginalSound == v.music.GetOr(NoMusic).original.GetOr(false)
    ensures m.payload.author.username == v.author.GetOr(NoAuthor).uniqueId
    ensures m.payload.author.nickname == v.author.GetOr(NoAuthor).nickname
    ensures m.payload.author.followerCount == v.authorStats.GetOr(NoAuthorStats).followerCount
  {
    var stats := v.stats.GetOr(NoStats);
    var author := v.author.GetOr(NoAuthor);
    var music := v.music.GetOr(NoMusic);
    var videoInfo := v.video.GetOr(NoVideoInfo);
    var authorStats := v.authorStats.GetOr(NoAuthorStats);
    Message(
      Source, now, VideoType,
      Payload(
        v.id, v.desc, PublishedAt(v.createTime),
        VideoUrl(author.uniqueId, v.id),
        MessageStats(stats.playCount, stats.diggCount, stats.commentCount, stats.shareCount, stats.collectCount),
        ContentMeta(videoInfo.duration, Hashtags(v.textExtra.GetOr([])), music.title, music.original.GetOr(false)),
        MessageAuthor(author.uniqueId, author.nickname, authorStats.followerCount)))
  }

  /**
   * A record with every sub-object missing still formats: all stats,
   * duration, music title and author fields are `None`, there are no
   * hashtags, the sound is not original, and the URL renders "None" for
   * the missing author id.
   */
  lemma MissingSubObjectsGiveNone(v: RawVideo, now: string)
    requires v.stats.None? && v.author.None? && v.music.None? && v.video.None?
    requires v.authorStats.None? && v.textExtra.None?
    ensures var p := FormatTikTokMessage(v, now).payload;
      && p.stats == MessageStats(None, None, None, None, None)
      && p.contentMeta == ContentMeta(None, [], None, false)
      && p.author == MessageAuthor(None, None, None)
      && p.url == UrlHead + "None" + VideoSeparator + Render(v.id)
  {
  }

  /**
   * The message's source is the platform parameter the trend feed sends
   * for its TikTok filter, and the dashboard client maps it back to
   * TikTok.
   */
  lemma SourceIsTikTokEverywhere(v: RawVideo, now: string)
    ensures TrendFeed.PlatformParam(ApiClient.Label(ApiClient.TikTok)) == Some(FormatTikTokMessage(v, now).source)
    ensures ApiClient.InferPlatform(ApiClient.Str(FormatTikTokMessage(v, now).source)) == ApiClient.TikTok
  {
    TrendFeed.LabelParam(ApiClient.TikTok);
    ApiClient.TikTokRecognised(ApiClient.Str("tiktok"));
  }

  /**
   * What the analyzer's JSON decoding makes of a message: a null reads as
   * the zero value, and the fields its records do not declare (`saves`,
   * the music fields) are dropped. The event time, an ISO text here, is
   * given as the instant it denotes.
   */
  function Decode(m: Message, eventTime: int): (d: Domain.SocialMediaMessage)
    ensures d.source == m.source && d.dataType == m.dataType && d.eventTime == eventTime
    ensures d.payload.platformId == m.payload.platformId.GetOr("")
    ensures d.payload.publishedAt == m.payload.publishedAt
    ensures d.payload.contentMeta.hashtags == m.payload.contentMeta.hashtags
  {
    var p := m.payload;
    Domain.SocialMediaMessage(
      m.source, eventTime, m.dataType,
      Domain.Payload(
        p.platformId.GetOr(""), p.description.GetOr(""), p.publishedAt, p.url,
        Domain.Stats(p.stats.views.GetOr(0), p.stats.likes.GetOr(0), p.stats.comments.GetOr(0), p.stats.shares.GetOr(0)),
        Domain.ContentMeta(p.contentMeta.duration.GetOr(0), p.contentMeta.hashtags),
        Domain.Author(p.author.username.GetOr(""), p.author.nickname.GetOr(""), p.author.followerCount.GetOr(0))))
  }

  /**
   * Every formatted message reaches the analyzer as a video message, so
   * the repository stores it (its data type is the one `SaveSnapshot`
   * accepts), under the TikTok id, with the four counters the formatter
   * renamed (missing ones as 0) and the saves count dropped.
   */
  lemma FormattedMessageIsStoredAsVideo(v: RawVideo, now: string, eventTime: int)
    ensures var d := Decode(FormatTikTokMessage(v, now), eventTime);
      && d.dataType == "video"
      && d.source == "tiktok"
      && d.payload.platformId == v.id.GetOr("")
      && d.payload.stats.views == v.stats.GetOr(NoStats).playCount.GetOr(0)
      && d.payload.stats.likes == v.stats.GetOr(NoStats).diggCount.GetOr(0)
      && d.payload.stats.comments == v.stats.GetOr(NoStats).commentCount.GetOr(0)
      && d.payload.stats.shares == v.stats.GetOr(NoStats).shareCount.GetOr(0)
  {
  }
}
