/**
 * The older dashboard handler of the analyzer service. It reads the
 * `snapshots` collection directly, parses its own query parameters and maps
 * `sort_by` to sort fields of its own. Each handler is a function from the
 * collection (and the request) to the reply it writes; a failure of the
 * database call itself is a parameter.
 */
module DashboardHandler {
  import opened Wrappers
  import opened Query
  import opened SnapshotStore
  import GoInt
  import Text

  /** The JSON body a handler writes. */
  datatype Body =
    | ErrorBody(error: string)
    | TrendingBody(data: seq<SnapshotDoc>, pagination: Pagination)
    | SnapshotList(docs: seq<SnapshotDoc>)
    | StatsBody(totalAssets: int, status: string)

  datatype Pagination = Pagination(total: int, page: int, limit: int)

  /** One reply: HTTP status and body. */
  datatype Reply = Reply(status: int, body: Body)

  /** The query string: for each key, its first value. */
  type QueryString = map<string, string>

  /** `c.DefaultQuery(key, def)`: the value when the key is present (even empty), else `def`. */
  function DefaultQuery(q: QueryString, key: string, def: string): (v: string)
    ensures key in q ==> v == q[key]
    ensures key !in q ==> v == def
  {
    if key in q then q[key] else def
  }

  /** `c.Query(key)`: the value, or "" when absent. */
  function QueryParam(q: QueryString, key: string): string {
    DefaultQuery(q, key, "")
  }

  /** The parameters `GetTrending` derives from the query string. */
  datatype TrendingQuery = TrendingQuery(sortBy: string, platform: string, page: int, limit: int, skip: int)

  /**
   * Defaults `sort_by` to "newest", `page` to "1" and `limit` to "20";
   * a page or limit that does not parse reads as 0 (the parse error is
   * ignored); the skip is `(page - 1) * limit` in int64.
   */
  function ParseTrendingQuery(q: QueryString): (t: TrendingQuery)
    ensures "sort_by" !in q ==> t.sortBy == "newest"
    ensures "page" !in q ==> t.page == 1
    ensures "limit" !in q ==> t.limit == 20
    ensures "sort_by" in q ==> t.sortBy == q["sort_by"]
    ensures "page" in q ==> t.page == GoInt.ParseIntIgnoringError(q["page"])
    ensures "limit" in q ==> t.limit == GoInt.ParseIntIgnoringError(q["limit"])
    ensures "page" in q && !GoInt.WellFormed(q["page"]) ==> t.page == 0
    ensures "limit" in q && !GoInt.WellFormed(q["limit"]) ==> t.limit == 0
    ensures t.platform == (if "platform" in q then q["platform"] else "")
    ensures GoInt.IsInt64(t.page) && GoInt.IsInt64(t.limit)
    ensures t.skip == GoInt.Mul(GoInt.Sub(t.page, 1), t.limit)
  {
    var page := GoInt.ParseIntIgnoringError(DefaultQuery(q, "page", "1"));
    var limit := GoInt.ParseIntIgnoringError(DefaultQuery(q, "limit", "20"));
    DefaultsParse();
    TrendingQuery(DefaultQuery(q, "sort_by", "newest"), QueryParam(q, "platform"), page, limit,
                  GoInt.Mul(GoInt.Sub(page, 1), limit))
  }

  /** The default page "1" and limit "20" read as 1 and 20. */
  lemma DefaultsParse()
    ensures GoInt.ParseIntIgnoringError("1") == 1
    ensures GoInt.ParseIntIgnoringError("20") == 20
  {
    assert GoInt.WellFormed("1") && GoInt.WellFormed("20");
    assert Text.DecimalValue("1") == 1;
    assert "20"[..1] == "2";
    assert Text.DecimalValue("20") == 20;
  }

  /** The handler's sort field for `sort_by` (always descending); "virality" sorts by likes here. */
  function HandlerSortField(sortBy: string): (field: string)
    ensures sortBy == "most_viewed" <==> field == "stats.views"
    ensures sortBy == "virality" <==> field == "stats.likes"
    ensures sortBy == "newest" <==> field == "published_at"
    ensures sortBy !in {"most_viewed", "virality", "newest"} <==> field == "snapshot_time"
  {
    match sortBy
    case "most_viewed" => "stats.views"
    case "virality" => "stats.likes"
    case "newest" => "published_at"
    case _ => "snapshot_time"
  }

  /** The value of a field of a snapshot document as MongoDB sorts it; absent fields are null. */
  function SnapshotField(field: string): SnapshotDoc -> Key {
    (s: SnapshotDoc) =>
      match field
      case "stats.views" => Num(s.stats.views)
      case "stats.likes" => Num(s.stats.likes)
      case "snapshot_time" => Num(s.snapshotTime)
      case _ => Null
  }

  /**
   * The equality filter `{field: value}` on a snapshot document. Snapshot
   * documents hold only `video_id`, `snapshot_time` and `stats`, so a filter
   * on any other field never matches.
   */
  function FieldEquals(field: string, value: string): (f: SnapshotDoc -> bool)
    ensures field != "video_id" ==> forall s :: !f(s)
    ensures field == "video_id" ==> forall s :: f(s) <==> s.videoId == value
  {
    (s: SnapshotDoc) => field == "video_id" && s.videoId == value
  }

  /** The filter of `GetTrending`: `{source: platform}` when a platform is given. */
  function TrendingFilter(platform: string): (f: SnapshotDoc -> bool)
    ensures platform == "" ==> forall s :: f(s)
    ensures platform != "" ==> forall s :: !f(s)
  {
    if platform == "" then All() else FieldEquals("source", platform)
  }

  /**
   * `GetTrending` over the snapshots collection: 500 when the find fails
   * (a negative skip, which the database refuses, or `db`) or the cursor
   * cannot be decoded, otherwise 200 with the page and a pagination block
   * echoing total, page and limit. A failed count is ignored and reports a
   * total of 0.
   */
  function GetTrending(snapshots: seq<SnapshotDoc>, q: QueryString, db: DbOutcome, countFails: bool): (r: Reply)
    ensures r.status == 200 ||
            r == Reply(500, ErrorBody("Failed to fetch trending videos")) ||
            r == Reply(500, ErrorBody("Failed to decode trending videos"))
    ensures r.status == 200 <==> db == Answers && ParseTrendingQuery(q).skip >= 0
    ensures db == FindFails || ParseTrendingQuery(q).skip < 0 ==>
              r == Reply(500, ErrorBody("Failed to fetch trending videos"))
    ensures db == DecodeFails && ParseTrendingQuery(q).skip >= 0 ==>
              r == Reply(500, ErrorBody("Failed to decode trending videos"))
    ensures r.status == 200 ==>
      var t := ParseTrendingQuery(q);
      var matching := Filter(snapshots, TrendingFilter(t.platform));
      && r.body.TrendingBody?
      && r.body.pagination == Pagination(if countFails then 0 else |matching|, t.page, t.limit)
      && (t.limit > 0 ==> |r.body.data| <= t.limit)
      && |r.body.data| == Window(|matching|, t.skip, t.limit)
      && IsPage(r.body.data, SortBy(matching, SnapshotField(HandlerSortField(t.sortBy)), Desc), t.skip)
      && multiset(r.body.data) <= multiset(matching)
      && Sorted(r.body.data, SnapshotField(HandlerSortField(t.sortBy)), Desc)
      && forall s :: s in r.body.data ==> s in snapshots
  {
    var t := ParseTrendingQuery(q);
    var filter := TrendingFilter(t.platform);
    var found := Find(snapshots, filter, SnapshotField(HandlerSortField(t.sortBy)), Desc, t.skip, t.limit);
    if db.FindFails? || found.Err? then Reply(500, ErrorBody("Failed to fetch trending videos"))
    else if db.DecodeFails? then Reply(500, ErrorBody("Failed to decode trending videos"))
    else
      assert db == Answers && t.skip >= 0;
      Reply(200, TrendingBody(found.value, Pagination(if countFails then 0 else Count(snapshots, filter), t.page, t.limit)))
  }

  /** `GetLeaderboard`: the five snapshots with the most likes, most first. */
  function GetLeaderboard(snapshots: seq<SnapshotDoc>, db: DbOutcome): (r: Reply)
    ensures db == FindFails <==> r == Reply(500, ErrorBody("Failed to fetch leaderboard"))
    ensures db == DecodeFails <==> r == Reply(500, ErrorBody("Failed to decode leaderboard"))
    ensures db == Answers ==>
      && r.status == 200 && r.body.SnapshotList?
      && |r.body.docs| == (if |snapshots| < LeaderboardSize then |snapshots| else LeaderboardSize)
      && multiset(r.body.docs) <= multiset(snapshots)
      && (forall s :: s in r.body.docs ==> s in snapshots)
      && (forall i, j :: 0 <= i < j < |r.body.docs| ==> r.body.docs[i].stats.likes >= r.body.docs[j].stats.likes)
      && forall s :: s in snapshots && s !in r.body.docs ==>
           forall e :: e in r.body.docs ==> s.stats.likes <= e.stats.likes
  {
    if db.FindFails? then Reply(500, ErrorBody("Failed to fetch leaderboard"))
    else if db.DecodeFails? then Reply(500, ErrorBody("Failed to decode leaderboard"))
    else
      var likes := SnapshotField("stats.likes");
      var top := Top(snapshots, likes, Desc, LeaderboardSize);
      LikesOrder(top, snapshots);
      Reply(200, SnapshotList(top))
  }

  /** The top list by the likes key, read as numbers of likes. */
  lemma LikesOrder(top: seq<SnapshotDoc>, snapshots: seq<SnapshotDoc>)
    requires Sorted(top, SnapshotField("stats.likes"), Desc)
    requires forall x, y :: x in snapshots && x !in top && y in top ==>
               InOrder(SnapshotField("stats.likes")(y), SnapshotField("stats.likes")(x), Desc)
    ensures forall i, j :: 0 <= i < j < |top| ==> top[i].stats.likes >= top[j].stats.likes
    ensures forall s :: s in snapshots && s !in top ==> forall e :: e in top ==> s.stats.likes <= e.stats.likes
  {
    var likes := SnapshotField("stats.likes");
    assert forall s :: likes(s) == Num(s.stats.likes);
    forall i, j | 0 <= i < j < |top| ensures top[i].stats.likes >= top[j].stats.likes {
      assert InOrder(likes(top[i]), likes(top[j]), Desc);
    }
    forall s, e | s in snapshots && s !in top && e in top ensures s.stats.likes <= e.stats.likes {
      assert InOrder(likes(e), likes(s), Desc);
    }
  }

  /**
   * `GetVideoTrajectory` as written: 400 for an empty id, otherwise the
   * snapshots whose `video_platform_id` equals the id, oldest first.
   */
  function GetVideoTrajectory(snapshots: seq<SnapshotDoc>, videoId: string, db: DbOutcome): (r: Reply)
    ensures videoId == "" <==> r == Reply(400, ErrorBody("Video ID is required"))
    ensures videoId != "" && db == FindFails ==> r == Reply(500, ErrorBody("Failed to fetch video trajectory"))
    ensures videoId != "" && db == DecodeFails ==> r == Reply(500, ErrorBody("Failed to decode snapshots"))
    ensures videoId != "" && db == Answers ==> r.status == 200 && r.body.SnapshotList?
  {
    if videoId == "" then Reply(400, ErrorBody("Video ID is required"))
    else if db.FindFails? then Reply(500, ErrorBody("Failed to fetch video trajectory"))
    else if db.DecodeFails? then Reply(500, ErrorBody("Failed to decode snapshots"))
    else
      var found := Find(snapshots, FieldEquals("video_platform_id", videoId), SnapshotField("snapshot_time"), Asc, 0, 0);
      Reply(200, SnapshotList(found.value))
  }

  /**
   * The trajectory handler never returns a snapshot: it filters on
   * `video_platform_id`, a field that snapshot documents do not carry (the
   * writer stores the id as `video_id`).
   */
  lemma TrajectoryAlwaysEmpty(snapshots: seq<SnapshotDoc>, videoId: string)
    requires videoId != ""
    ensures GetVideoTrajectory(snapshots, videoId, Answers) == Reply(200, SnapshotList([]))
  {
  }

  /**
   * For contrast: after one successful save of a video, the repository's
   * own trajectory query returns that snapshot while this handler still
   * returns nothing.
   */
  lemma TrajectoryDiffersFromRepository(s: SnapshotDoc)
    requires s.videoId != ""
    ensures SnapshotStore.GetVideoTrajectory([s], s.videoId, Answers) == Ok([s])
    ensures GetVideoTrajectory([s], s.videoId, Answers).body.docs == []
  {
  }

  /**
   * A non-empty platform filter never matches: snapshot documents carry no
   * `source` field, so the trending page is empty and its total is 0.
   */
  lemma PlatformFilterMatchesNothing(snapshots: seq<SnapshotDoc>, q: QueryString, countFails: bool)
    requires QueryParam(q, "platform") != ""
    requires GetTrending(snapshots, q, Answers, countFails).status == 200
    ensures GetTrending(snapshots, q, Answers, countFails).body.data == []
    ensures GetTrending(snapshots, q, Answers, countFails).body.pagination.total == 0
  {
  }

  /** `GetStats`: the estimated number of snapshots, and a fixed "NOMINAL" status. */
  function GetStats(snapshots: seq<SnapshotDoc>, countFails: bool): (r: Reply)
    ensures countFails ==> r == Reply(500, ErrorBody("Failed to fetch stats"))
    ensures !countFails ==> r == Reply(200, StatsBody(|snapshots|, "NOMINAL"))
  {
    if countFails then Reply(500, ErrorBody("Failed to fetch stats"))
    else Reply(200, StatsBody(|snapshots|, "NOMINAL"))
  }
}
