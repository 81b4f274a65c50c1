/**
 * The trend feed's view state: the items shown, the loading flag, the view
 * mode, the platform filter, the sort order and the page, and the fetches
 * the view has issued. React's two effects run in declaration order after
 * a render in which their dependencies changed: the first fetches with the
 * current filter, sort and page, and the second resets the page to 1 when
 * the filter or sort changed. Setting a state to the value it already has
 * does not re-render. The fetch itself is outside the model: each issued
 * request is logged, and its completion is a separate step.
 */
module TrendFeed {
  import opened Wrappers
  import Text
  import ApiClient

  datatype ViewMode = Grid | Table

  /** One call of `fetchTrendingVideos(sortBy, platformParam, page)`. */
  datatype Request = Request(sortBy: string, platform: Option<string>, page: int)

  /** How many items a full page holds: the request's fixed `limit`. */
  const PageSize: nat := 20

  /**
   * The platform parameter of a filter value: none for "All", otherwise
   * the first space-delimited word, lower-cased.
   */
  function PlatformParam(filter: string): (p: Option<string>)
    ensures p.None? <==> filter == "All"
    ensures p.Some? ==> ' ' !in p.value && |p.value| <= |filter|
    ensures p.Some? ==> p.value == Text.ToLower(filter[..|p.value|])
    ensures p.Some? ==> |p.value| == |filter| || filter[|p.value|] == ' '
  {
    if filter == "All" then None else Some(Text.ToLower(Text.FirstWord(filter)))
  }

  /** The parameter each platform's filter label sends. */
  function ParamName(p: ApiClient.Platform): string {
    match p
    case TikTok => "tiktok"
    case YouTube => "youtube"
    case Instagram => "instagram"
    case Twitter => "x"
  }

  /** Each platform label sends that platform's parameter name. */
  lemma LabelParam(p: ApiClient.Platform)
    ensures PlatformParam(ApiClient.Label(p)) == Some(ParamName(p))
  {
    if p == ApiClient.Twitter {
      assert Text.FirstWord("X (Twitter)") == "X" by {
        assert Text.FirstWord(" (Twitter)") == "";
      }
      assert Text.ToLower("X") == "x";
    } else {
      SingleWordParam(ApiClient.Label(p));
      LowerLabel(p);
    }
  }

  /** Every one-word label lower-cases to its parameter. */
  lemma LowerLabel(p: ApiClient.Platform)
    requires p != ApiClient.Twitter
    ensures Text.ToLower(ApiClient.Label(p)) == ParamName(p)
  {
    match p
    case TikTok => assert Text.ToLower("TikTok") == "tiktok";
    case YouTube => assert Text.ToLower("YouTube") == "youtube";
    case Instagram => assert Text.ToLower("Instagram") == "instagram";
  }

  /** A one-word filter other than "All" sends itself, lower-cased. */
  lemma SingleWordParam(filter: string)
    requires filter != "All" && ' ' !in filter
    ensures PlatformParam(filter) == Some(Text.ToLower(filter))
  {
    Text.FirstWordWithoutSpace(filter);
  }

  /**
   * The filter labels ask the server for a platform that the client maps
   * back to the same platform: the parameter of each label names that
   * label's platform.
   */
  lemma PlatformParamRoundTrip(p: ApiClient.Platform)
    ensures PlatformParam(ApiClient.Label(p)).Some?
    ensures ApiClient.InferPlatform(ApiClient.Str(PlatformParam(ApiClient.Label(p)).value)) == p
  {
    LabelParam(p);
    match p
    case TikTok => ApiClient.TikTokRecognised(ApiClient.Str("tiktok"));
    case YouTube => ApiClient.YouTubeRecognised();
    case Instagram => ApiClient.InstagramRecognised();
    case Twitter => ApiClient.XRecognised();
  }

  class TrendFeedView {
    var items: seq<ApiClient.ContentItem>
    var loading: bool
    var viewMode: ViewMode
    var platformFilter: string
    var sortBy: string
    var page: int
    /** Every fetch issued so far, oldest first. */
    var requests: seq<Request>

    /** The request the current filter, sort and page call for. */
    function Current(): Request
      reads this
    {
      Request(sortBy, PlatformParam(platformFilter), page)
    }

    /**
     * The page never drops below 1, and the latest fetch issued always
     * asks for the current filter, sort and page.
     */
    ghost predicate Valid()
      reads this
    {
      page >= 1 && requests != [] && requests[|requests| - 1] == Current()
    }

    /** The full-page loader replaces the whole view while loading with nothing to show. */
    predicate ShowsLoader()
      reads this
    {
      loading && |items| == 0
    }

    /** The pagination controls are shown only when there are items. */
    predicate ShowsPagination()
      reads this
    {
      !ShowsLoader() && |items| > 0
    }

    predicate PrevEnabled()
      reads this
    {
      ShowsPagination() && page != 1 && !loading
    }

    predicate NextEnabled()
      reads this
    {
      ShowsPagination() && |items| >= PageSize && !loading
    }

    /** Mounting: the initial state, and the first effect's fetch; the reset effect sets page 1 again, which changes nothing. */
    constructor ()
      ensures Valid()
      ensures items == [] && loading && viewMode == Table
      ensures platformFilter == "All" && sortBy == "newest" && page == 1
      ensures requests == [Request("newest", None, 1)]
    {
      items := [];
      loading := true;
      viewMode := Table;
      platformFilter := "All";
      sortBy := "newest";
      page := 1;
      requests := [Request("newest", None, 1)];
    }

    /** `loadData()`: set loading and fetch with the current filter, sort and page. */
    method LoadData()
      modifies this
      ensures loading && requests == old(requests) + [old(Current())]
      ensures items == old(items) && viewMode == old(viewMode) && platformFilter == old(platformFilter)
      ensures sortBy == old(sortBy) && page == old(page)
    {
      loading := true;
      requests := requests + [Current()];
    }

    /**
     * After a render in which the filter or the sort changed: the fetch
     * effect runs with the page as it was, then the reset effect sets the
     * page to 1, and if that changed the page the fetch effect runs again.
     */
    method FilterOrSortChanged()
      requires page >= 1
      modifies this
      ensures loading && page == 1
      ensures requests == old(requests) + [old(Current())] + (if old(page) != 1 then [Current()] else [])
      ensures items == old(items) && viewMode == old(viewMode)
      ensures platformFilter == old(platformFilter) && sortBy == old(sortBy)
      ensures Valid()
    {
      LoadData();
      if page != 1 {
        page := 1;
        LoadData();
      }
    }

    /** Choosing a platform in the filter select (not rendered while the loader shows). */
    method SetPlatformFilter(value: string)
      requires Valid()
      modifies this
      ensures Valid()
      ensures old(ShowsLoader()) || value == old(platformFilter) ==>
                platformFilter == old(platformFilter) && page == old(page) && requests == old(requests)
      ensures !old(ShowsLoader()) && value != old(platformFilter) ==>
                && platformFilter == value && page == 1 && loading
                && requests == old(requests) + [Request(sortBy, PlatformParam(value), old(page))]
                                             + (if old(page) != 1 then [Request(sortBy, PlatformParam(value), 1)] else [])
      ensures items == old(items) && sortBy == old(sortBy) && viewMode == old(viewMode)
    {
      if ShowsLoader() || value == platformFilter {
        return;
      }
      platformFilter := value;
      FilterOrSortChanged();
    }

    /** Choosing a sort order in the sort select (not rendered while the loader shows). */
    method SetSortBy(value: string)
      requires Valid()
      modifies this
      ensures Valid()
      ensures old(ShowsLoader()) || value == old(sortBy) ==>
                sortBy == old(sortBy) && page == old(page) && requests == old(requests)
      ensures !old(ShowsLoader()) && value != old(sortBy) ==>
                && sortBy == value && page == 1 && loading
                && requests == old(requests) + [Request(value, PlatformParam(platformFilter), old(page))]
                                             + (if old(page) != 1 then [Request(value, PlatformParam(platformFilter), 1)] else [])
      ensures items == old(items) && platformFilter == old(platformFilter) && viewMode == old(viewMode)
    {
      if ShowsLoader() || value == sortBy {
        return;
      }
      sortBy := value;
      FilterOrSortChanged();
    }

    /** Prev: disabled on page 1 and while loading; otherwise one page back and a fetch of it. */
    method Prev()
      requires Valid()
      modifies this
      ensures Valid()
      ensures !old(PrevEnabled()) ==> page == old(page) && requests == old(requests) && loading == old(loading)
      ensures old(PrevEnabled()) ==>
                page == old(page) - 1 && loading && requests == old(requests) + [Current()]
      ensures items == old(items) && platformFilter == old(platformFilter) && sortBy == old(sortBy)
      ensures viewMode == old(viewMode)
    {
      if !PrevEnabled() {
        return;
      }
      page := page - 1;
      LoadData();
    }

    /** Next: disabled when fewer than a full page came back and while loading; otherwise one page on. */
    method Next()
      requires Valid()
      modifies this
      ensures Valid()
      ensures !old(NextEnabled()) ==> page == old(page) && requests == old(requests) && loading == old(loading)
      ensures old(NextEnabled()) ==>
                page == old(page) + 1 && loading && requests == old(requests) + [Current()]
      ensures items == old(items) && platformFilter == old(platformFilter) && sortBy == old(sortBy)
      ensures viewMode == old(viewMode)
    {
      if !NextEnabled() {
        return;
      }
      page := page + 1;
      LoadData();
    }

    /** The table and grid buttons (not rendered while the loader shows). */
    method SetViewMode(mode: ViewMode)
      requires Valid()
      modifies this
      ensures Valid()
      ensures viewMode == (if old(ShowsLoader()) then old(viewMode) else mode)
      ensures items == old(items) && loading == old(loading) && platformFilter == old(platformFilter)
      ensures sortBy == old(sortBy) && page == old(page) && requests == old(requests)
    {
      if !ShowsLoader() {
        viewMode := mode;
      }
    }

    /**
     * A fetch settles: its items (`Some`) replace the list wholesale, a
     * failure (`None`) leaves the list alone, and loading ends either way.
     */
    method Settle(outcome: Option<seq<ApiClient.ContentItem>>)
      requires Valid()
      modifies this
      ensures Valid()
      ensures !loading
      ensures items == if outcome.Some? then outcome.value else old(items)
      ensures viewMode == old(viewMode) && platformFilter == old(platformFilter)
      ensures sortBy == old(sortBy) && page == old(page) && requests == old(requests)
    {
      if outcome.Some? {
        items := outcome.value;
      }
      loading := false;
    }
  }
}
