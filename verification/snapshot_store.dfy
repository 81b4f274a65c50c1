/**
 * The analyzer service's snapshot repository over MongoDB, as an in-memory
 * store: the `videos` collection is a map from platform id to the video
 * document (upserted by `_id`), the `snapshots` collection an append-only
 * sequence. Queries filter, sort, skip and limit that store.
 */
module SnapshotStore {
  import opened Wrappers
  import opened Domain
  import opened Query
  import GoInt

  const Database: string := "virality_db"

  /** The `metrics` sub-document of a video. */
  datatype Metrics = Metrics(viralityScore: int, engagementRate: real)

  /** A document of the `videos` collection; its `_id` is `videoPlatformId`. */
  datatype VideoDoc = VideoDoc(
    videoPlatformId: string,
    source: string,
    author: Author,
    title: string,
    url: string,
    publishedAt: Option<int>,
    hashtags: seq<string>,
    duration: int,
    lastUpdated: int,
    stats: Stats,
    metrics: Metrics)

  /** A document of the `snapshots` collection: the four counters of one video at one instant. */
  datatype SnapshotDoc = SnapshotDoc(videoId: string, snapshotTime: int, stats: Stats)

  /**
   * Likes, comments and shares as a percentage of views, 0 when there are
   * no views (computed here over exact reals).
   */
  function EngagementRate(s: Stats): (r: real)
    ensures s.views <= 0 ==> r == 0.0
    ensures s.views > 0 && s.likes >= 0 && s.comments >= 0 && s.shares >= 0 ==> r >= 0.0
  {
    if s.views > 0 then (s.likes + s.comments + s.shares) as real / s.views as real * 100.0 else 0.0
  }

  /** The weighted interaction count whose logarithm gives the virality score. */
  function RawVirality(s: Stats): int {
    s.likes + s.comments * 5 + s.shares * 10
  }

  /** The stored virality score: the log-based score, capped at 100. */
  function ViralityScore(logScore: int): (r: int)
    ensures r <= 100
    ensures logScore <= 100 ==> r == logScore
  {
    if logScore > 100 then 100 else logScore
  }

  /** The fields `SaveSnapshot` sets on the video document of a message saved at `now`. */
  function VideoDocOf(msg: SocialMediaMessage, now: int, logScore: int): (d: VideoDoc)
    ensures d.videoPlatformId == msg.payload.platformId && d.source == msg.source
    ensures d.author == msg.payload.author && d.title == msg.payload.description && d.url == msg.payload.url
    ensures d.publishedAt == msg.payload.publishedAt
    ensures d.hashtags == msg.payload.contentMeta.hashtags && d.duration == msg.payload.contentMeta.duration
    ensures d.stats == msg.payload.stats && d.lastUpdated == now
    ensures d.metrics.viralityScore <= 100 && (logScore <= 100 ==> d.metrics.viralityScore == logScore)
    ensures d.metrics.engagementRate == EngagementRate(msg.payload.stats)
  {
    var p := msg.payload;
    VideoDoc(p.platformId, msg.source, p.author, p.description, p.url, p.publishedAt,
             p.contentMeta.hashtags, p.contentMeta.duration, now, p.stats,
             Metrics(ViralityScore(logScore), EngagementRate(p.stats)))
  }

  /** Why `SaveSnapshot` failed, carrying the driver's error text. */
  datatype SaveError = UpsertFailed(cause: string) | InsertFailed(cause: string)

  /** The repository over the two collections. */
  class Repository {
    /** The `videos` collection, keyed by `_id`. */
    var videos: map<string, VideoDoc>
    /** The `_id`s of `videos` in natural (first-insertion) order. */
    var order: seq<string>
    /** The `snapshots` collection, in insertion order. */
    var snapshots: seq<SnapshotDoc>

    /**
     * Every video is stored under its own platform id, `order` lists each key
     * once, and every snapshot belongs to a stored video.
     */
    ghost predicate Valid()
      reads this
    {
      && (forall id :: id in videos <==> id in order)
      && (forall i, j :: 0 <= i < j < |order| ==> order[i] != order[j])
      && (forall id :: id in videos ==> videos[id].videoPlatformId == id)
      && (forall i :: 0 <= i < |snapshots| ==> snapshots[i].videoId in videos)
    }

    /** The `videos` collection in natural order. */
    function Videos(): (vs: seq<VideoDoc>)
      reads this
      requires Valid()
      ensures |vs| == |order| == |videos|
      ensures forall i :: 0 <= i < |vs| ==> vs[i] == videos[order[i]]
    {
      DistinctKeysCount(videos.Keys, order);
      var o, m := order, videos;
      seq(|o|, i requires 0 <= i < |o| => m[o[i]])
    }

    constructor ()
      ensures Valid()
      ensures videos == map[] && order == [] && snapshots == []
    {
      videos := map[];
      order := [];
      snapshots := [];
    }

    /**
     * Stores one message received at `now`. A message that is not a video is
     * ignored. Otherwise the video document is upserted under its platform id
     * and then one snapshot of its counters is appended. `upsertError` and
     * `insertError` are what the database answers to the two writes; a failed
     * upsert writes nothing, a failed insert leaves the upserted video.
     * `logScore` is the log-based virality score of the message's counters.
     */
    method SaveSnapshot(msg: SocialMediaMessage, now: int, logScore: int,
                        upsertError: Option<string>, insertError: Option<string>)
      returns (err: Option<SaveError>)
      requires Valid()
      modifies this
      ensures Valid()
      ensures msg.dataType != "video" ==>
        err == None && videos == old(videos) && order == old(order) && snapshots == old(snapshots)
      ensures msg.dataType == "video" && upsertError.Some? ==>
        err == Some(UpsertFailed(upsertError.value))
        && videos == old(videos) && order == old(order) && snapshots == old(snapshots)
      ensures msg.dataType == "video" && upsertError.None? ==>
        && videos == old(videos)[msg.payload.platformId := VideoDocOf(msg, now, logScore)]
        && order == old(if msg.payload.platformId in videos then order else order + [msg.payload.platformId])
        && (insertError.Some? ==> err == Some(InsertFailed(insertError.value)) && snapshots == old(snapshots))
        && (insertError.None? ==>
              err == None && snapshots == old(snapshots) + [SnapshotDoc(msg.payload.platformId, now, msg.payload.stats)])
    {
      if msg.dataType != "video" {
        return None;
      }
      var p := msg.payload;
      if upsertError.Some? {
        return Some(UpsertFailed(upsertError.value));
      }
      if p.platformId !in videos {
        order := order + [p.platformId];
      }
      videos := videos[p.platformId := VideoDocOf(msg, now, logScore)];
      if insertError.Some? {
        return Some(InsertFailed(insertError.value));
      }
      snapshots := snapshots + [SnapshotDoc(p.platformId, now, p.stats)];
      err := None;
    }
  }

  /** A set listed without repetition by a sequence has that sequence's length. */
  lemma DistinctKeysCount(keys: set<string>, order: seq<string>)
    requires forall id :: id in keys <==> id in order
    requires forall i, j :: 0 <= i < j < |order| ==> order[i] != order[j]
    ensures |keys| == |order|
  {
    if order != [] {
      var last := order[|order| - 1];
      var init := order[..|order| - 1];
      forall id ensures id in keys - {last} <==> id in init {
        if id in order && id != last {
          var k :| 0 <= k < |order| && order[k] == id;
          assert k < |order| - 1;
        }
      }
      DistinctKeysCount(keys - {last}, init);
    }
  }

  // ---- Queries of the repository ----

  /** The parameters of a trending query (all int64 on the wire). */
  datatype TrendingParams = TrendingParams(sortBy: string, platform: string, page: int, limit: int)

  /** The `source` filter of the trending query: none for an empty platform. */
  function PlatformFilter(platform: string): (f: VideoDoc -> bool)
    ensures platform == "" ==> forall d :: f(d)
    ensures platform != "" ==> forall d :: f(d) <==> d.source == platform
  {
    (d: VideoDoc) => platform == "" || d.source == platform
  }

  /** The field of a video document a trending query sorts on (always descending). */
  function TrendingSortField(sortBy: string): (field: string)
    ensures sortBy == "most_viewed" <==> field == "stats.views"
    ensures sortBy == "virality" <==> field == "metrics.virality_score"
    ensures sortBy == "newest" <==> field == "published_at"
    ensures sortBy !in {"most_viewed", "virality", "newest"} <==> field == "last_updated"
  {
    match sortBy
    case "most_viewed" => "stats.views"
    case "virality" => "metrics.virality_score"
    case "newest" => "published_at"
    case _ => "last_updated"
  }

  /** The value of a sortable field of a video document, as MongoDB compares it. */
  function VideoField(field: string): VideoDoc -> Key {
    (d: VideoDoc) =>
      match field
      case "stats.views" => Num(d.stats.views)
      case "metrics.virality_score" => Num(d.metrics.viralityScore)
      case "published_at" => if d.publishedAt.Some? then Num(d.publishedAt.value) else Null
      case "last_updated" => Num(d.lastUpdated)
      case _ => Null
  }

  /** One page of trending videos and the number of videos the filter matches. */
  datatype TrendingPage = TrendingPage(videos: seq<VideoDoc>, total: int)

  /** Which driver call of a query returned an error. */
  datatype QueryError = FindFailed | DecodeFailed | CountFailed

  /**
   * `GetTrendingVideos`: filter on the platform, sort descending on the field
   * chosen by `sortBy`, skip `(page-1)*limit` (int64 arithmetic) and take
   * `limit`. The find fails when `db` says so or the skip is negative (the
   * database refuses it); decoding the cursor fails when `db` says so. A
   * failed count is ignored and reports a total of 0.
   */
  function GetTrendingVideos(videos: seq<VideoDoc>, params: TrendingParams, db: DbOutcome, countFails: bool)
    : (r: Result<TrendingPage, QueryError>)
    ensures r.Err? <==> db != Answers || TrendingSkip(params) < 0
    ensures r.Err? ==> r.error == if db == DecodeFails && TrendingSkip(params) >= 0 then DecodeFailed else FindFailed
    ensures r.Ok? ==> r.value.total == if countFails then 0 else Count(videos, PlatformFilter(params.platform))
    ensures r.Ok? ==> forall d :: d in r.value.videos ==>
              d in videos && (params.platform != "" ==> d.source == params.platform)
    ensures r.Ok? ==> multiset(r.value.videos) <= multiset(Filter(videos, PlatformFilter(params.platform)))
    ensures r.Ok? ==> Sorted(r.value.videos, VideoField(TrendingSortField(params.sortBy)), Desc)
    ensures r.Ok? ==> |r.value.videos| == Window(Count(videos, PlatformFilter(params.platform)), TrendingSkip(params), params.limit)
    ensures r.Ok? ==> IsPage(r.value.videos,
              SortBy(Filter(videos, PlatformFilter(params.platform)), VideoField(TrendingSortField(params.sortBy)), Desc),
              TrendingSkip(params))
    ensures r.Ok? && params.limit > 0 ==> |r.value.videos| <= params.limit
  {
    var filter := PlatformFilter(params.platform);
    var found := Find(videos, filter, VideoField(TrendingSortField(params.sortBy)), Desc, TrendingSkip(params), params.limit);
    if db.FindFails? || found.Err? then Err(FindFailed)
    else if db.DecodeFails? then Err(DecodeFailed)
    else Ok(TrendingPage(found.value, if countFails then 0 else Count(videos, filter)))
  }

  /** The number of videos a trending page skips: `(page - 1) * limit` in int64. */
  function TrendingSkip(params: TrendingParams): (skip: int)
    ensures GoInt.IsInt64(skip)
    ensures GoInt.IsInt64(params.page - 1) && GoInt.IsInt64((params.page - 1) * params.limit) ==>
              skip == (params.page - 1) * params.limit
  {
    GoInt.Mul(GoInt.Sub(params.page, 1), params.limit)
  }

  /** The leaderboard size. */
  const LeaderboardSize: nat := 5

  /**
   * `GetLeaderboard`: the five videos with the highest virality score,
   * highest first, unless the find or the decoding fails.
   */
  function GetLeaderboard(videos: seq<VideoDoc>, db: DbOutcome): (r: Result<seq<VideoDoc>, QueryError>)
    ensures db == FindFails <==> r == Err(FindFailed)
    ensures db == DecodeFails <==> r == Err(DecodeFailed)
    ensures r.Ok? <==> db == Answers
    ensures r.Ok? ==> |r.value| == if |videos| < LeaderboardSize then |videos| else LeaderboardSize
    ensures r.Ok? ==> multiset(r.value) <= multiset(videos)
    ensures r.Ok? ==> Sorted(r.value, VideoField("metrics.virality_score"), Desc)
    ensures r.Ok? ==> forall d :: d in videos && d !in r.value ==>
              forall e :: e in r.value ==> d.metrics.viralityScore <= e.metrics.viralityScore
  {
    if db.FindFails? then Err(FindFailed)
    else if db.DecodeFails? then Err(DecodeFailed)
    else
      var score := VideoField("metrics.virality_score");
      assert forall d :: score(d) == Num(d.metrics.viralityScore);
      Ok(Top(videos, score, Desc, LeaderboardSize))
  }

  /** The matching snapshots of one video. */
  function OfVideo(videoId: string): (f: SnapshotDoc -> bool)
    ensures forall s :: f(s) <==> s.videoId == videoId
  {
    (s: SnapshotDoc) => s.videoId == videoId
  }

  function SnapshotTime(): SnapshotDoc -> Key {
    (s: SnapshotDoc) => Num(s.snapshotTime)
  }

  /** Sorted by the `snapshot_time` key means ascending snapshot times. */
  lemma TimeOrder(r: seq<SnapshotDoc>)
    requires Sorted(r, SnapshotTime(), Asc)
    ensures forall i, j :: 0 <= i < j < |r| ==> r[i].snapshotTime <= r[j].snapshotTime
  {
    forall i, j | 0 <= i < j < |r| ensures r[i].snapshotTime <= r[j].snapshotTime {
      assert InOrder(SnapshotTime()(r[i]), SnapshotTime()(r[j]), Asc);
    }
  }

  /** `GetVideoTrajectory`: every snapshot of the video, oldest first, unless the find or the decoding fails. */
  function GetVideoTrajectory(snapshots: seq<SnapshotDoc>, videoId: string, db: DbOutcome)
    : (r: Result<seq<SnapshotDoc>, QueryError>)
    ensures db == FindFails <==> r == Err(FindFailed)
    ensures db == DecodeFails <==> r == Err(DecodeFailed)
    ensures r.Ok? <==> db == Answers
    ensures r.Ok? ==> multiset(r.value) == multiset(Filter(snapshots, OfVideo(videoId)))
    ensures r.Ok? ==> forall s :: s in r.value <==> s in snapshots && s.videoId == videoId
    ensures r.Ok? ==> forall i, j :: 0 <= i < j < |r.value| ==> r.value[i].snapshotTime <= r.value[j].snapshotTime
  {
    if db.FindFails? then Err(FindFailed)
    else if db.DecodeFails? then Err(DecodeFailed)
    else
      var found := Find(snapshots, OfVideo(videoId), SnapshotTime(), Asc, 0, 0);
      FindUnlimited(snapshots, OfVideo(videoId), SnapshotTime(), Asc);
      TimeOrder(found.value);
      assert forall s :: s in found.value <==> s in multiset(found.value);
      Ok(found.value)
  }

  /** The result of `GetStats`. */
  datatype StatsDoc = StatsDoc(totalAssets: int, status: string)

  /** `GetStats`: the number of stored videos and a fixed "NOMINAL" status, unless the count fails. */
  function GetStats(videos: seq<VideoDoc>, countFails: bool): (r: Result<StatsDoc, QueryError>)
    ensures countFails <==> r == Err(CountFailed)
    ensures r.Ok? <==> !countFails
    ensures r.Ok? ==> r.value.totalAssets == |videos| && r.value.status == "NOMINAL"
  {
    if countFails then Err(CountFailed)
    else
      FilterAll(videos);
      Ok(StatsDoc(Count(videos, All()), "NOMINAL"))
  }

  /**
   * Once a save has appended a snapshot, the video's trajectory holds one
   * more snapshot, and the new one among them; other videos' trajectories
   * are unchanged.
   */
  lemma TrajectoryAfterSave(snapshots: seq<SnapshotDoc>, s: SnapshotDoc, videoId: string)
    ensures s.videoId == videoId ==>
      |GetVideoTrajectory(snapshots + [s], videoId, Answers).value|
        == |GetVideoTrajectory(snapshots, videoId, Answers).value| + 1
      && s in GetVideoTrajectory(snapshots + [s], videoId, Answers).value
    ensures s.videoId != videoId ==>
      multiset(GetVideoTrajectory(snapshots + [s], videoId, Answers).value)
        == multiset(GetVideoTrajectory(snapshots, videoId, Answers).value)
  {
    FilterConcat(snapshots, [s], OfVideo(videoId));
    assert [s][1..] == [];
  }

  // ---- Connection with retry ----

  const MaxRetries: nat := 10
  const BaseRetrySeconds: nat := 1
  const MaxRetrySeconds: nat := 20

  function Pow2(i: nat): (r: nat)
    ensures r >= 1
  {
    if i == 0 then 1 else 2 * Pow2(i - 1)
  }

  /** The wait after failed attempt `i` (counting from 0): 2^i seconds, at most 20. */
  function Backoff(i: nat): (w: nat)
    ensures 1 <= w <= MaxRetrySeconds
  {
    var wait := BaseRetrySeconds * Pow2(i);
    if wait > MaxRetrySeconds then MaxRetrySeconds else wait
  }

  /** The waits grow: 1, 2, 4, 8, 16 and then 20 seconds for every later attempt. */
  lemma {:induction false} BackoffSchedule(i: nat)
    ensures i < 5 ==> Backoff(i) == Pow2(i)
    ensures i >= 5 ==> Backoff(i) == MaxRetrySeconds
    ensures Backoff(i) <= Backoff(i + 1)
  {
    if i >= 5 {
      PowGrows(i);
    } else {
      assert Pow2(5) == 32;
      PowGrows(i);
    }
  }

  lemma {:induction false} PowGrows(i: nat)
    ensures i >= 5 ==> Pow2(i) >= 32
    ensures i < 5 ==> Pow2(i) <= 16
  {
    if i > 0 {
      PowGrows(i - 1);
    }
  }

  function Sum(ws: seq<nat>): nat {
    if ws == [] then 0 else Sum(ws[..|ws| - 1]) + ws[|ws| - 1]
  }

  /**
   * `ConnectToDBWithRetry`: up to ten attempts to connect and ping;
   * `succeeds(i)` says whether attempt `i` does. Returns on the first
   * success; after each failed attempt, the last one included, it waits
   * `Backoff(i)` seconds. `waits` lists the sleeps in order.
   */
  method ConnectWithRetry(succeeds: nat -> bool) returns (connected: bool, attempts: nat, waits: seq<nat>)
    ensures 1 <= attempts <= MaxRetries
    ensures connected <==> exists i :: 0 <= i < MaxRetries && succeeds(i)
    ensures connected ==> succeeds(attempts - 1) && forall i :: 0 <= i < attempts - 1 ==> !succeeds(i)
    ensures !connected ==> attempts == MaxRetries
    ensures |waits| == if connected then attempts - 1 else attempts
    ensures forall i :: 0 <= i < |waits| ==> waits[i] == Backoff(i)
    ensures Sum(waits) <= MaxRetrySeconds * |waits|
  {
    var i := 0;
    waits := [];
    while i < MaxRetries
      invariant 0 <= i <= MaxRetries
      invariant forall k :: 0 <= k < i ==> !succeeds(k)
      invariant |waits| == i
      invariant forall k :: 0 <= k < i ==> waits[k] == Backoff(k)
      invariant Sum(waits) <= MaxRetrySeconds * i
    {
      if succeeds(i) {
        return true, i + 1, waits;
      }
      var next := BaseRetrySeconds * Pow2(i);
      if next > MaxRetrySeconds {
        next := MaxRetrySeconds;
      }
      assert (waits + [next])[..i] == waits;
      waits := waits + [next];
      i := i + 1;
    }
    return false, MaxRetries, waits;
  }

  /** Ten failed attempts wait 131 seconds in all. */
  lemma TotalWaitWhenAllFail()
    ensures Sum(seq(MaxRetries, i requires 0 <= i => Backoff(i))) == 131
  {
    var ws := seq(MaxRetries, i requires 0 <= i => Backoff(i));
    assert Pow2(4) == 16 && Pow2(5) == 32;
    BackoffSchedule(5); BackoffSchedule(6); BackoffSchedule(7); BackoffSchedule(8); BackoffSchedule(9);
    assert ws == [1, 2, 4, 8, 16, 20, 20, 20, 20, 20];
    var k := 0;
    while k < 10
      invariant k <= 10
      invariant Sum(ws[..k]) == [0, 1, 3, 7, 15, 31, 51, 71, 91, 111, 131][k]
    {
      assert ws[..k + 1][..k] == ws[..k];
      k := k + 1;
    }
    assert ws[..10] == ws;
  }
}
