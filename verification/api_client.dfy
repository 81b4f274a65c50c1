/**
 * The frontend's normalisation layer over the gateway's JSON: raw video
 * records become UI content items, the dashboard status is mapped, the
 * trending request's parameters are built, trajectory points are copied,
 * and every HTTP response goes through one error convention.
 *
 * A JSON field is either absent (or null) or present. Text fields keep the
 * difference between absent, null and present because a template literal
 * renders them differently; `||` treats absent, null and "" as false, `??`
 * treats only absent and null as missing. The clock (`new Date()`) is the
 * `nowIso` parameter.
 */
module ApiClient {
  import opened Wrappers
  import Text
  import GoInt
  import DashboardHandler

  /** The UI's platforms and the label each one shows. */
  datatype Platform = TikTok | YouTube | Instagram | Twitter

  function Label(p: Platform): string {
    match p
    case TikTok => "TikTok"
    case YouTube => "YouTube"
    case Instagram => "Instagram"
    case Twitter => "X (Twitter)"
  }

  /** A JSON text field as JavaScript sees it. */
  datatype JsText = Undefined | Null | Str(s: string)

  /** `||` on a text field: absent, null and "" are false. */
  predicate Truthy(v: JsText) {
    v.Str? && v.s != ""
  }

  /** `a || b` on text fields. */
  function Or(a: JsText, b: JsText): (r: JsText)
    ensures Truthy(a) ==> r == a
    ensures !Truthy(a) ==> r == b
  {
    if Truthy(a) then a else b
  }

  /** `a || fallback` with a string fallback. */
  function OrElse(a: JsText, fallback: string): (r: string)
    ensures fallback != "" ==> r != ""
    ensures Truthy(a) ==> r == a.s
    ensures !Truthy(a) ==> r == fallback
  {
    if Truthy(a) then a.s else fallback
  }

  /** `${v}` in a template literal. */
  function Render(v: JsText): string {
    match v
    case Undefined => "undefined"
    case Null => "null"
    case Str(s) => s
  }

  /** `n ?? 0`: `None` is an absent or null number. */
  function OrZero(n: Option<int>): (r: int)
    ensures n.Some? ==> r == n.value
    ensures n.None? ==> r == 0
  {
    n.GetOr(0)
  }

  datatype RawStats = RawStats(views: Option<int>, likes: Option<int>, comments: Option<int>, shares: Option<int>)
  datatype RawMetrics = RawMetrics(viralityScore: Option<int>, engagementRate: Option<int>)
  datatype RawAuthor = RawAuthor(username: JsText, nickname: JsText)

  /** A video record as the gateway sends it; every field may be missing. */
  datatype RawVideo = RawVideo(
    id: JsText,
    videoPlatformId: JsText,
    source: JsText,
    title: JsText,
    url: JsText,
    publishedAt: JsText,
    stats: Option<RawStats>,
    metrics: Option<RawMetrics>,
    author: Option<RawAuthor>)

  /** The UI's `ContentItem`. `id` is whatever `_id || video_platform_id` yields, which may be missing. */
  datatype ContentItem = ContentItem(
    id: JsText,
    title: string,
    author: string,
    thumbnail: string,
    platform: Platform,
    views: int,
    likes: int,
    comments: int,
    shares: int,
    viralityScore: int,
    engagementRate: int,
    sentimentScore: int,
    publishedAt: string,
    parsedAt: string,
    url: string,
    tags: seq<string>)

  /** `data.stats || {}` and friends: a missing sub-object reads as one whose fields are all missing. */
  function StatsOf(raw: RawVideo): RawStats {
    if raw.stats.Some? then raw.stats.value else RawStats(None, None, None, None)
  }

  function MetricsOf(raw: RawVideo): RawMetrics {
    if raw.metrics.Some? then raw.metrics.value else RawMetrics(None, None)
  }

  function AuthorOf(raw: RawVideo): RawAuthor {
    if raw.author.Some? then raw.author.value else RawAuthor(Undefined, Undefined)
  }

  /**
   * The platform named by `source`, lower-cased, checked in order:
   * "youtube", then "instagram", then "twitter" or exactly "x", and TikTok
   * for everything else (a missing source included).
   */
  function InferPlatform(source: JsText): (p: Platform)
    ensures var s := Text.ToLower(OrElse(source, ""));
      && (p == YouTube <==> Text.Contains(s, "youtube"))
      && (p == Instagram <==> !Text.Contains(s, "youtube") && Text.Contains(s, "instagram"))
      && (p == Twitter <==> !Text.Contains(s, "youtube") && !Text.Contains(s, "instagram")
                            && (Text.Contains(s, "twitter") || s == "x"))
  {
    var s := Text.ToLower(OrElse(source, ""));
    if Text.Contains(s, "youtube") then YouTube
    else if Text.Contains(s, "instagram") then Instagram
    else if Text.Contains(s, "twitter") || s == "x" then Twitter
    else TikTok
  }

  /** The inference ignores ASCII case: a source and its lower-cased form name the same platform. */
  lemma InferPlatformIgnoresCase(s: string)
    ensures InferPlatform(Str(s)) == InferPlatform(Str(Text.ToLower(s)))
  {
    Text.ToLowerIdempotent(s);
    if s == "" {
      assert Text.ToLower(s) == "";
    }
  }

  /** "youtube" is YouTube. */
  lemma YouTubeRecognised()
    ensures InferPlatform(Str("youtube")) == YouTube
  {
  }

  /** "instagram" is Instagram. */
  lemma InstagramRecognised()
    ensures InferPlatform(Str("instagram")) == Instagram
  {
    assert Text.ToLower("instagram") == "instagram";
    Text.ContainsSelf("instagram");
    Text.NotContainsChar("instagram", "youtube");
  }

  /** "x" is X (Twitter). */
  lemma XRecognised()
    ensures InferPlatform(Str("x")) == Twitter
  {
  }

  /** "tiktok" and a missing source are TikTok. */
  lemma TikTokRecognised(source: JsText)
    requires source == Str("tiktok") || !Truthy(source)
    ensures InferPlatform(source) == TikTok
  {
  }

  const PicsumPrefix: string := "https://picsum.photos/seed/"
  const PicsumSuffix: string := "/400/225"

  /**
   * `mapBackendToFrontend(data)`. Text fields fall back with `||` (title
   * 'Untitled Video', author username then nickname then 'Unknown', url
   * '#', publication time now); counters and metrics fall back to 0 with
   * `??`, so a present 0 is kept; `id` prefers `_id` while the thumbnail
   * seed prefers `video_platform_id`; tags are empty and the sentiment
   * score is 0.
   */
  function MapBackendToFrontend(raw: RawVideo, nowIso: string): (item: ContentItem)
    ensures item.id == Or(raw.id, raw.videoPlatformId)
    ensures item.thumbnail == PicsumPrefix + Render(Or(raw.videoPlatformId, raw.id)) + PicsumSuffix
    ensures item.platform == InferPlatform(raw.source)
    ensures item.title != "" && item.author != "" && item.url != ""
    ensures nowIso != "" ==> item.publishedAt != ""
    ensures Truthy(raw.title) ==> item.title == raw.title.s
    ensures !Truthy(raw.title) ==> item.title == "Untitled Video"
    ensures Truthy(AuthorOf(raw).username) ==> item.author == AuthorOf(raw).username.s
    ensures !Truthy(AuthorOf(raw).username) && Truthy(AuthorOf(raw).nickname) ==> item.author == AuthorOf(raw).nickname.s
    ensures !Truthy(AuthorOf(raw).username) && !Truthy(AuthorOf(raw).nickname) ==> item.author == "Unknown"
    ensures item.views == OrZero(StatsOf(raw).views) && item.likes == OrZero(StatsOf(raw).likes)
    ensures item.comments == OrZero(StatsOf(raw).comments) && item.shares == OrZero(StatsOf(raw).shares)
    ensures item.viralityScore == OrZero(MetricsOf(raw).viralityScore)
    ensures item.engagementRate == OrZero(MetricsOf(raw).engagementRate)
    ensures item.sentimentScore == 0 && item.tags == [] && item.parsedAt == nowIso
    ensures item.publishedAt == OrElse(raw.publishedAt, nowIso)
    ensures item.url == OrElse(raw.url, "#")
  {
    var stats := StatsOf(raw);
    var metrics := MetricsOf(raw);
    var author := AuthorOf(raw);
    ContentItem(
      Or(raw.id, raw.videoPlatformId),
      OrElse(raw.title, "Untitled Video"),
      OrElse(Or(author.username, author.nickname), "Unknown"),
      PicsumPrefix + Render(Or(raw.videoPlatformId, raw.id)) + PicsumSuffix,
      InferPlatform(raw.source),
      OrZero(stats.views), OrZero(stats.likes), OrZero(stats.comments), OrZero(stats.shares),
      OrZero(metrics.viralityScore), OrZero(metrics.engagementRate),
      0,
      OrElse(raw.publishedAt, nowIso),
      nowIso,
      OrElse(raw.url, "#"),
      [])
  }

  /**
   * A present counter is kept even when it is 0, while an empty title is
   * replaced: `??` and `||` differ exactly on falsy present values.
   */
  lemma ZeroKeptEmptyTitleReplaced(raw: RawVideo, nowIso: string)
    requires raw.stats == Some(RawStats(Some(0), Some(7), None, None))
    requires raw.title == Str("")
    ensures MapBackendToFrontend(raw, nowIso).views == 0
    ensures MapBackendToFrontend(raw, nowIso).likes == 7
    ensures MapBackendToFrontend(raw, nowIso).title == "Untitled Video"
  {
  }

  /** `.map(mapBackendToFrontend)`: one item per record, in order. */
  function MapAll(raws: seq<RawVideo>, nowIso: string): (items: seq<ContentItem>)
    ensures |items| == |raws|
    ensures forall i :: 0 <= i < |raws| ==> items[i] == MapBackendToFrontend(raws[i], nowIso)
  {
    if raws == [] then [] else [MapBackendToFrontend(raws[0], nowIso)] + MapAll(raws[1..], nowIso)
  }

  /** `fetchTrendingVideos`' result: the answer's `data` list mapped, or nothing when it has none. */
  function MapTrending(data: Option<seq<RawVideo>>, nowIso: string): (items: seq<ContentItem>)
    ensures data.None? ==> items == []
    ensures data.Some? ==> |items| == |data.value|
    ensures data.Some? ==> forall i :: 0 <= i < |items| ==> items[i] == MapBackendToFrontend(data.value[i], nowIso)
  {
    MapAll(data.GetOr([]), nowIso)
  }

  /** `s.charAt(0).toUpperCase() + s.slice(1)`. */
  function UpperFirst(s: string): (r: string)
    ensures |r| == |s|
    ensures s != "" ==> r[0] == Text.UpperChar(s[0]) && r[1..] == s[1..]
  {
    if s == "" then "" else [Text.UpperChar(s[0])] + s[1..]
  }

  /**
   * The dashboard's status: a missing or empty status reads 'Warning';
   * 'ok' in any case becomes 'Nominal'; anything else keeps its text with
   * the first character upper-cased.
   */
  function MapStatus(status: JsText): (r: string)
    ensures r != ""
    ensures !Truthy(status) ==> r == "Warning"
    ensures Truthy(status) && Text.ToLower(status.s) == "ok" ==> r == "Nominal"
    ensures Truthy(status) && Text.ToLower(status.s) != "ok" ==>
              r[0] == Text.UpperChar(status.s[0]) && r[1..] == status.s[1..]
  {
    var raw := OrElse(status, "Warning");
    if Text.ToLower(raw) == "ok" then "Nominal" else UpperFirst(raw)
  }

  /** Upper-casing the first character does not change the lower-cased text. */
  lemma LowerOfUpperFirst(s: string)
    ensures Text.ToLower(UpperFirst(s)) == Text.ToLower(s)
  {
  }

  /** Mapping is idempotent: a mapped status maps to itself. */
  lemma MapStatusIdempotent(status: JsText)
    ensures MapStatus(Str(MapStatus(status))) == MapStatus(status)
  {
  }

  datatype RawDashboardStats = RawDashboardStats(status: JsText, totalAssets: Option<int>)
  datatype RawDashboard = RawDashboard(stats: Option<RawDashboardStats>, leaderboard: Option<seq<RawVideo>>)

  datatype DashboardData = DashboardData(totalAssets: int, systemStatus: string, leaderboard: seq<ContentItem>)

  /** `fetchDashboardData`'s mapping of the gateway's answer. */
  function MapDashboard(res: RawDashboard, nowIso: string): (d: DashboardData)
    ensures res.stats.None? ==> d.totalAssets == 0 && d.systemStatus == "Warning"
    ensures res.stats.Some? ==> d.totalAssets == OrZero(res.stats.value.totalAssets)
    ensures res.stats.Some? ==> d.systemStatus == MapStatus(res.stats.value.status)
    ensures res.leaderboard.None? ==> d.leaderboard == []
    ensures res.leaderboard.Some? ==> |d.leaderboard| == |res.leaderboard.value|
    ensures res.leaderboard.Some? ==>
              forall i :: 0 <= i < |d.leaderboard| ==>
                d.leaderboard[i] == MapBackendToFrontend(res.leaderboard.value[i], nowIso)
  {
    var status := if res.stats.Some? then res.stats.value.status else Undefined;
    var total := if res.stats.Some? then res.stats.value.totalAssets else None;
    DashboardData(OrZero(total), MapStatus(status), MapAll(res.leaderboard.GetOr([]), nowIso))
  }

  /**
   * The trending request's query parameters, in order: `sort_by`, then
   * `platform` only when one is given and non-empty, then `page` and
   * `limit` '20'.
   */
  function TrendingRequestParams(sortBy: string, platform: Option<string>, page: int): (ps: seq<(string, string)>)
    ensures |ps| == if platform.Some? && platform.value != "" then 4 else 3
    ensures ps[0] == ("sort_by", sortBy)
    ensures ps[|ps| - 2] == ("page", Text.IntToString(page)) && ps[|ps| - 1] == ("limit", "20")
    ensures platform.Some? && platform.value != "" ==> ps[1] == ("platform", platform.value)
    ensures forall i :: 0 <= i < |ps| ==> ps[i].0 != "platform" || (platform.Some? && platform.value != "")
  {
    [("sort_by", sortBy)]
    + (if platform.Some? && platform.value != "" then [("platform", platform.value)] else [])
    + [("page", Text.IntToString(page)), ("limit", "20")]
  }

  /** The query string a server reads from a parameter list: for each key, its first value. */
  function QueryOf(ps: seq<(string, string)>): (q: map<string, string>)
    ensures forall k :: k in q <==> exists i :: 0 <= i < |ps| && ps[i].0 == k
    ensures ps != [] ==> q[ps[0].0] == ps[0].1
  {
    if ps == [] then map[] else QueryOf(ps[1..])[ps[0].0 := ps[0].1]
  }

  /**
   * The analyzer's handler reads back what the feed sends (were the
   * parameters delivered as built): the same sort order, the platform or
   * "" without one, the same page, a limit of 20, and a skip of
   * `(page - 1) * 20`.
   */
  lemma TrendingRequestRoundTrip(sortBy: string, platform: Option<string>, page: int)
    requires GoInt.IsInt64(page)
    ensures var t := DashboardHandler.ParseTrendingQuery(QueryOf(TrendingRequestParams(sortBy, platform, page)));
      && t.sortBy == sortBy
      && t.platform == (if platform.Some? then platform.value else "")
      && t.page == page
      && t.limit == 20
  {
    var pageText := Text.IntToString(page);
    var q := QueryOf(TrendingRequestParams(sortBy, platform, page));
    if platform.Some? && platform.value != "" {
      assert TrendingRequestParams(sortBy, platform, page)
          == [("sort_by", sortBy), ("platform", platform.value), ("page", pageText), ("limit", "20")];
      QueryOfFour(sortBy, platform.value, pageText);
    } else {
      assert TrendingRequestParams(sortBy, platform, page)
          == [("sort_by", sortBy), ("page", pageText), ("limit", "20")];
      QueryOfThree(sortBy, pageText);
    }
    NumbersReadBack(q, page);
  }

  /** A rendered page and the limit "20" parse back to their values. */
  lemma NumbersReadBack(q: map<string, string>, page: int)
    requires GoInt.IsInt64(page)
    requires "page" in q && q["page"] == Text.IntToString(page)
    requires "limit" in q && q["limit"] == "20"
    ensures DashboardHandler.ParseTrendingQuery(q).page == page
    ensures DashboardHandler.ParseTrendingQuery(q).limit == 20
  {
    GoInt.ParseRendered(page);
    GoInt.ParseRendered(20);
    assert Text.IntToString(20) == "20" by {
      assert Text.NatToString(20) == Text.NatToString(2) + [Text.DigitChar(0)];
    }
    assert DashboardHandler.DefaultQuery(q, "page", "1") == Text.IntToString(page);
    assert DashboardHandler.DefaultQuery(q, "limit", "20") == Text.IntToString(20);
  }

  lemma QueryOfThree(sortBy: string, page: string)
    ensures QueryOf([("sort_by", sortBy), ("page", page), ("limit", "20")])
         == map["sort_by" := sortBy, "page" := page, "limit" := "20"]
  {
  }

  lemma QueryOfFour(sortBy: string, platform: string, page: string)
    ensures QueryOf([("sort_by", sortBy), ("platform", platform), ("page", page), ("limit", "20")])
         == map["sort_by" := sortBy, "platform" := platform, "page" := page, "limit" := "20"]
  {
    var ps := [("sort_by", sortBy), ("platform", platform), ("page", page), ("limit", "20")];
    assert ps[1..][1..][1..][1..] == [];
    assert QueryOf(ps[1..][1..][1..]) == map["limit" := "20"];
    assert QueryOf(ps[1..][1..]) == map["limit" := "20", "page" := page];
    assert QueryOf(ps[1..]) == map["limit" := "20", "page" := page, "platform" := platform];
  }

  /** A trajectory point as the UI draws it. */
  datatype HistoryPoint = HistoryPoint(timestamp: JsText, views: int, likes: int)

  datatype RawSnapshot = RawSnapshot(snapshotTime: JsText, stats: Option<RawStats>)

  /**
   * `fetchVideoTrajectory`'s mapping: one point per snapshot, in order,
   * copying the snapshot time, with views and likes 0 when missing.
   */
  function MapTrajectory(snapshots: seq<RawSnapshot>): (points: seq<HistoryPoint>)
    ensures |points| == |snapshots|
    ensures forall i :: 0 <= i < |snapshots| ==>
      var s := snapshots[i];
      && points[i].timestamp == s.snapshotTime
      && points[i].views == (if s.stats.Some? then OrZero(s.stats.value.views) else 0)
      && points[i].likes == (if s.stats.Some? then OrZero(s.stats.value.likes) else 0)
  {
    if snapshots == [] then []
    else
      var s := snapshots[0];
      var p := HistoryPoint(s.snapshotTime,
                            if s.stats.Some? then OrZero(s.stats.value.views) else 0,
                            if s.stats.Some? then OrZero(s.stats.value.likes) else 0);
      [p] + MapTrajectory(snapshots[1..])
  }

  /** An HTTP response: its status and a body that is JSON (with an optional `message`) or not. */
  datatype Body<J> = NotJson | Json(message: JsText, value: J)
  datatype HttpResponse<J> = HttpResponse(status: int, body: Body<J>)

  /** What `handleResponse` resolves to or throws; `BodyNotJson` is the JSON parser's own error. */
  datatype Outcome<J> = Returned(value: J) | Thrown(message: string) | BodyNotJson

  predicate Ok(status: int) {
    200 <= status <= 299
  }

  /**
   * `handleResponse` without its side effects: 401 throws 'Unauthorized';
   * any other non-2xx throws 'API Error' when the body is not JSON, the
   * body's message when it is truthy, and 'Status: <code>' otherwise; a
   * 2xx returns the parsed body.
   */
  function ResponseOutcome<J>(resp: HttpResponse<J>): (o: Outcome<J>)
    ensures o.Returned? <==> Ok(resp.status) && resp.body.Json?
    ensures o.Returned? ==> o.value == resp.body.value
    ensures resp.status == 401 ==> o == Thrown("Unauthorized")
    ensures o.Thrown? <==> !Ok(resp.status)
    ensures o.Thrown? ==> o.message != ""
    ensures !Ok(resp.status) && resp.status != 401 && resp.body.NotJson? ==> o == Thrown("API Error")
    ensures !Ok(resp.status) && resp.status != 401 && resp.body.Json? && !Truthy(resp.body.message) ==>
              o == Thrown("Status: " + Text.IntToString(resp.status))
    ensures !Ok(resp.status) && resp.status != 401 && resp.body.Json? && Truthy(resp.body.message) ==>
              o == Thrown(resp.body.message.s)
  {
    if resp.status == 401 then Thrown("Unauthorized")
    else if !Ok(resp.status) then
      var message := if resp.body.NotJson? then Str("API Error") else resp.body.message;
      Thrown(OrElse(message, "Status: " + Text.IntToString(resp.status)))
    else if resp.body.NotJson? then BodyNotJson
    else Returned(resp.body.value)
  }

  /** The browser state `handleResponse` touches: local storage and page reloads. */
  const SessionKey: string := "trendpulse_user"

  class Browser {
    var localStorage: map<string, string>
    var reloads: nat

    constructor (stored: map<string, string>)
      ensures localStorage == stored && reloads == 0
    {
      localStorage := stored;
      reloads := 0;
    }

    /**
     * `handleResponse(response)`: on 401 the stored session is removed and
     * a reload is requested before throwing; every other response leaves
     * the browser state alone.
     */
    method HandleResponse<J>(resp: HttpResponse<J>) returns (o: Outcome<J>)
      modifies this
      ensures o == ResponseOutcome(resp)
      ensures resp.status == 401 ==> localStorage == old(localStorage) - {SessionKey} && reloads == old(reloads) + 1
      ensures resp.status != 401 ==> localStorage == old(localStorage) && reloads == old(reloads)
    {
      if resp.status == 401 {
        localStorage := localStorage - {SessionKey};
        reloads := reloads + 1;
        return Thrown("Unauthorized");
      }
      o := ResponseOutcome(resp);
    }
  }
}
