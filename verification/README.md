# TrendPulse core, modelled in Dafny

TrendPulse collects short-video records from social platforms, scores them,
and shows trends on a dashboard. A TikTok parser formats raw records into
ingestion messages. The virality analyzer stores each video message in
MongoDB: the `videos` collection keeps the latest document per platform id,
and the `snapshots` collection keeps one snapshot per save. The analyzer
answers trending, leaderboard, trajectory and stats queries. A React
frontend normalises the gateway's JSON, keeps the trend feed's
filter/sort/page state, colours the dashboard status and merges chart
series. A Go user service shares a small error and response layer.

This project models those deterministic pieces and proves properties about
them:

- `message_formatter.dfy` covers the TikTok message formatter.
- `snapshot_store.dfy` covers the repository over MongoDB:
  - a `Repository` class with a map of videos and an append-only sequence of snapshots;
  - the queries;
  - the connection retry loop.
- `query.dfy` covers MongoDB's filter/sort/skip/limit.
- `dashboard_handler.dfy` covers the older dashboard handler, as written.
- `api_client.dfy` covers the frontend normalisation layer.
- `trend_feed.dfy` covers the trend feed's view state as a class.
- `dashboard_view.dfy` covers the dashboard view.
- `trend_chart.dfy` covers the chart's series merge.
- These files cover the Go error and response conventions:
  - `go_errors.dfy` (Go error chains: `errors.Is` and `errors.As`);
  - `repo_error.dfy`;
  - `api_errors.dfy`;
  - `api_response.dfy`;
  - `api_helpers.dfy`.
- Shared helpers:
  - `wrappers.dfy`: Option and Result;
  - `text.dfy`: ASCII case, substring search, decimal rendering, padding;
  - `domain.dfy`: the analyzer's message records and Go's int64 arithmetic.

Inputs from the outside world are parameters:

- the current time;
- what the database answers or whether it fails;
- whether a connection attempt succeeds;
- the outcome of JSON binding;
- whether a frontend fetch succeeds.

Writes to an HTTP context are returned as values.

## Model

| member | source | states |
|---|---|---|
| Text.ToLower | frontend/services/api.ts:18 | `toLowerCase` keeps the length and lower-cases each character |
| Text.FirstWord | frontend/components/TrendFeedView.tsx:26 | `split(' ')[0]` is a space-free prefix ended by a space or by the end of the text |
| Text.IntToString | frontend/services/api.ts:105 | `page.toString()`: the decimal rendering, with a minus sign for a negative number |
| Text.PadStart | frontend/components/DashboardView.tsx:124 | `padStart` keeps the text as the suffix and pads to the width with the pad character |
| Query.Find | services/virality-analyzer-service/internal/storage/mongo.go:169-174 | a find fails exactly for a negative skip; otherwise the page is the run of the sorted matches that starts after `skip` of them, of length Window(count, skip, limit); it is sorted, holds only matching documents and none more often than it matches |
| Query.PageOf | services/virality-analyzer-service/internal/storage/mongo.go:169-172 | the page cut from a sorted list has the window's length, starts at the skip, is sorted and is a sub-multiset of the list |
| Query.SortBy | services/virality-analyzer-service/internal/storage/mongo.go:170 | sorting gives a permutation of the input, sorted on the key in the given direction |
| Query.Filter | services/virality-analyzer-service/internal/storage/mongo.go:148-152 | the filtered list holds exactly the matching documents |
| Query.FilterMultiset | services/virality-analyzer-service/internal/storage/mongo.go:148-152 | each matching document is kept as often as it occurs, every other one never |
| Query.FilterConcat | services/virality-analyzer-service/internal/storage/mongo.go:148-152 | filtering keeps the order: the matches of a concatenation are the matches of each part, in turn |
| Query.Count | services/virality-analyzer-service/internal/storage/mongo.go:184 | `CountDocuments` is the number of matching documents: at most the collection size, and 0 exactly when nothing matches |
| Query.CountAppend | services/virality-analyzer-service/internal/storage/mongo.go:184 | one more document raises the count by one exactly when it matches |
| Query.Window | services/virality-analyzer-service/internal/storage/mongo.go:171-172 | with skip < total, the page holds total - skip documents when the limit is 0 or at least that, and |limit| otherwise; none once the skip reaches the total |
| Query.Top | services/virality-analyzer-service/internal/storage/mongo.go:192-193 | a find of everything with a positive limit k returns min(k, n) documents, sorted, none more often than stored, and no document left out comes before one returned |
| Query.FindUnlimited | services/virality-analyzer-service/internal/storage/mongo.go:206-209 | a find without skip or limit returns every match in the sort order |
| GoInt.Wrap | services/virality-analyzer-service/internal/api/handlers/dashboard_handler.go:61 | int64 arithmetic wraps to an int64 congruent to the exact result, and leaves in-range results unchanged |
| GoInt.ParseIntIgnoringError | services/virality-analyzer-service/internal/api/handlers/dashboard_handler.go:57-58 | `ParseInt` with its error ignored gives 0 for text that is not a number; otherwise the signed decimal value, clamped to MaxInt64 or MinInt64 when out of range (the value Go returns with ErrRange) |
| GoInt.ParseLeadingZeros | services/virality-analyzer-service/internal/api/handlers/dashboard_handler.go:57-58 | leading zeros do not change the number read |
| GoInt.ParseRendered | services/virality-analyzer-service/internal/api/handlers/dashboard_handler.go:57-58 | every rendered int64 is well formed and parses back to itself |
| SnapshotStore.EngagementRate | services/virality-analyzer-service/internal/storage/mongo.go:53-56 | the engagement rate is 0 without views, and non-negative for non-negative counters |
| SnapshotStore.ViralityScore | services/virality-analyzer-service/internal/storage/mongo.go:58-61 | the stored score never exceeds 100, and a score of at most 100 is kept |
| SnapshotStore.VideoDocOf | services/virality-analyzer-service/internal/storage/mongo.go:65-82 | the upserted document carries the platform id, source, author, description as title, url, published_at, hashtags, duration and stats of the message, the save time as last_updated, the capped score and the engagement rate of its stats |
| SnapshotStore.Repository.SaveSnapshot | services/virality-analyzer-service/internal/storage/mongo.go:44-110 | non-video messages change nothing and succeed; a failed upsert changes nothing; otherwise the video is upserted under its id (at most one per id), and a successful insert appends exactly one snapshot with `video_id` = platform id and the same four stats; the store stays valid |
| SnapshotStore.PlatformFilter | services/virality-analyzer-service/internal/storage/mongo.go:148-152 | an empty platform matches every video; otherwise exactly the videos with that source match |
| SnapshotStore.TrendingSortField | services/virality-analyzer-service/internal/storage/mongo.go:154-164 | most_viewed sorts on views, virality on virality_score, newest on published_at, and anything else on last_updated (iff in each case) |
| SnapshotStore.GetTrendingVideos | services/virality-analyzer-service/internal/storage/mongo.go:145-187 | fails on a failed find (a negative skip included) or decode, with that error; otherwise the page is the run of the platform's videos, sorted descending on the chosen field, that starts after `(page-1)*limit` of them, of length Window(total, skip, limit), none more often than stored; the total is the count of matches, or 0 when the count fails |
| SnapshotStore.TrendingSkip | services/virality-analyzer-service/internal/storage/mongo.go:166 | the skip is `(page-1)*limit` whenever that fits in int64, and is always an int64 |
| SnapshotStore.GetLeaderboard | services/virality-analyzer-service/internal/storage/mongo.go:189-201 | the two failures give their errors, and the result is Ok exactly when the database answers; then min(5, n) videos, none more often than stored, by virality score descending; no video left out scores above one returned |
| SnapshotStore.GetVideoTrajectory | services/virality-analyzer-service/internal/storage/mongo.go:203-217 | the two failures give their errors, and the result is Ok exactly when the database answers; then exactly that video's snapshots (as a multiset), in ascending snapshot time |
| SnapshotStore.GetStats | services/virality-analyzer-service/internal/storage/mongo.go:219-228 | a failed count gives its error, and the result is Ok exactly when the count succeeds; then total_assets is the number of videos and the status is "NOMINAL" |
| SnapshotStore.TrajectoryAfterSave | services/virality-analyzer-service/internal/storage/mongo.go:92-106 | an appended snapshot adds exactly one point to its own video's trajectory and leaves every other trajectory unchanged |
| SnapshotStore.Backoff | services/virality-analyzer-service/internal/storage/mongo.go:132-135 | every wait lies between 1 and 20 seconds |
| SnapshotStore.BackoffSchedule | services/virality-analyzer-service/internal/storage/mongo.go:132-135 | the wait after attempt i is 2^i seconds for i < 5 and 20 seconds from then on, never shrinking |
| SnapshotStore.ConnectWithRetry | services/virality-analyzer-service/internal/storage/mongo.go:112-143 | at most 10 attempts; connected iff some attempt in the first ten succeeds, returning on the first one; one wait of Backoff(i) after each failed attempt |
| SnapshotStore.TotalWaitWhenAllFail | services/virality-analyzer-service/internal/storage/mongo.go:113-139 | ten failed attempts wait 131 seconds in all |
| DashboardHandler.ParseTrendingQuery | services/virality-analyzer-service/internal/api/handlers/dashboard_handler.go:53-61 | sort_by is taken as given, else newest; page and limit are what ParseInt reads with its error ignored (so an unparsable one reads as 0), else 1 and 20; the platform is "" when absent; skip = (page-1)*limit in int64 |
| DashboardHandler.HandlerSortField | services/virality-analyzer-service/internal/api/handlers/dashboard_handler.go:70-80 | most_viewed sorts on stats.views, virality on stats.likes, newest on published_at, and anything else on snapshot_time (iff in each case) |
| DashboardHandler.FieldEquals | services/virality-analyzer-service/internal/api/handlers/dashboard_handler.go:125 | a snapshot filter matches only on `video_id`, the one string field snapshot documents have |
| DashboardHandler.TrendingFilter | services/virality-analyzer-service/internal/api/handlers/dashboard_handler.go:64-67 | an empty platform matches every snapshot; any other platform matches none, since snapshots carry no `source` |
| DashboardHandler.GetTrending | services/virality-analyzer-service/internal/api/handlers/dashboard_handler.go:47-111 | 200 iff the database answers and the skip is non-negative; a failed find or a negative skip gives "Failed to fetch trending videos" and a failed decode "Failed to decode trending videos"; the page is the run of the sorted matches that starts after the skip, of length Window(matches, skip, limit), none more often than stored, with pagination echoing total (0 when the count fails), page and limit |
| DashboardHandler.GetLeaderboard | services/virality-analyzer-service/internal/api/handlers/dashboard_handler.go:25-45 | 500 bodies exactly on the two failures; otherwise min(5, n) stored snapshots, none more often than stored, by likes descending, with no left-out snapshot above a returned one |
| DashboardHandler.GetVideoTrajectory | services/virality-analyzer-service/internal/api/handlers/dashboard_handler.go:112-143 | 400 exactly for an empty id; the two 500 bodies on failures; 200 with a snapshot list otherwise |
| DashboardHandler.TrajectoryAlwaysEmpty | services/virality-analyzer-service/internal/api/handlers/dashboard_handler.go:125 | for any id the 200 answer is the empty list |
| DashboardHandler.TrajectoryDiffersFromRepository | services/virality-analyzer-service/internal/api/handlers/dashboard_handler.go:125 | after one save, the repository's trajectory is that snapshot while the handler's is empty |
| DashboardHandler.PlatformFilterMatchesNothing | services/virality-analyzer-service/internal/api/handlers/dashboard_handler.go:64-67 | with a platform given, the trending page is empty and its total is 0 |
| DashboardHandler.GetStats | services/virality-analyzer-service/internal/api/handlers/dashboard_handler.go:146-158 | 500 on a failed count, otherwise 200 with the snapshot count and "NOMINAL" |
| ApiClient.Or | frontend/services/api.ts:24 | `a \|\| b` is a when a is truthy and b otherwise |
| ApiClient.OrElse | frontend/services/api.ts:25 | `a \|\| fallback` is a's text when truthy, else the fallback, so it is never empty with a non-empty fallback |
| ApiClient.OrZero | frontend/services/api.ts:29-34 | `n ?? 0` keeps every present number, 0 included, and is 0 only when the number is absent |
| ApiClient.InferPlatform | frontend/services/api.ts:16-21 | YouTube iff the lower-cased source contains "youtube"; otherwise Instagram iff "instagram"; otherwise X iff "twitter" or exactly "x"; TikTok otherwise |
| ApiClient.InferPlatformIgnoresCase | frontend/services/api.ts:18 | a source and its lower-cased form infer the same platform |
| ApiClient.YouTubeRecognised | frontend/services/api.ts:19 | "youtube" infers YouTube |
| ApiClient.InstagramRecognised | frontend/services/api.ts:20 | "instagram" infers Instagram |
| ApiClient.XRecognised | frontend/services/api.ts:21 | "x" infers X (Twitter) |
| ApiClient.TikTokRecognised | frontend/services/api.ts:17-18 | "tiktok" and a missing or empty source infer TikTok |
| ApiClient.MapBackendToFrontend | frontend/services/api.ts:11-41 | id prefers `_id` and the thumbnail seed prefers `video_platform_id`; title, author, url and publication time fall back with `\|\|`; counters and metrics fall back to 0 with `??`; tags are empty and the sentiment is 0 |
| ApiClient.ZeroKeptEmptyTitleReplaced | frontend/services/api.ts:25-34 | a present 0 view count is kept while an empty title is replaced |
| ApiClient.MapAll | frontend/services/api.ts:89 | mapping a list keeps its length and order, item by item |
| ApiClient.MapTrending | frontend/services/api.ts:113 | a trending answer without `data` gives no items; otherwise one item per record, in order |
| ApiClient.UpperFirst | frontend/services/api.ts:84 | the first character is upper-cased, the length and the rest are unchanged |
| ApiClient.MapStatus | frontend/services/api.ts:82-84 | a missing or empty status reads 'Warning'; 'ok' in any case reads 'Nominal'; any other status keeps its text with the first character upper-cased |
| ApiClient.LowerOfUpperFirst | frontend/services/api.ts:84 | upper-casing the first character does not change the lower-cased text |
| ApiClient.MapStatusIdempotent | frontend/services/api.ts:82-84 | mapping a mapped status gives it back unchanged |
| ApiClient.MapDashboard | frontend/services/api.ts:86-90 | total assets default to 0, the status is mapped, and a missing leaderboard is empty; otherwise each entry is mapped in order |
| ApiClient.TrendingRequestParams | frontend/services/api.ts:102-107 | sort_by first, platform only when given and non-empty, then page and limit '20' |
| ApiClient.TrendingRequestRoundTrip | frontend/services/api.ts:102-107 | the handler's query parsing reads back the same sort, platform ("" when none), page and limit 20 |
| ApiClient.NumbersReadBack | services/virality-analyzer-service/internal/api/handlers/dashboard_handler.go:57-58 | a rendered page and the limit "20" parse back to their values |
| ApiClient.MapTrajectory | frontend/services/api.ts:125-129 | one point per snapshot, in order, copying the snapshot time; missing views or likes become 0 |
| ApiClient.ResponseOutcome | frontend/services/api.ts:52-63 | 401 throws 'Unauthorized'; any other non-2xx throws 'API Error' when the body is not JSON, the body's message when it is truthy, and 'Status: code' when it is not; a 2xx with a JSON body returns it |
| ApiClient.Browser.HandleResponse | frontend/services/api.ts:52-57 | on 401 the session key is removed and one reload is requested; every other status leaves the browser state alone |
| TrendFeed.PlatformParam | frontend/components/TrendFeedView.tsx:24-27 | no platform iff the filter is 'All'; otherwise the lower-cased first word: a space-free prefix of the filter that ends at a space or at the end |
| TrendFeed.LabelParam | frontend/components/TrendFeedView.tsx:24-27 | each platform label yields its platform's parameter: tiktok, youtube, instagram or x |
| TrendFeed.PlatformParamRoundTrip | frontend/components/TrendFeedView.tsx:24-29 | the parameter sent for a platform's label is inferred back as that platform |
| TrendFeed.TrendFeedView.constructor | frontend/components/TrendFeedView.tsx:13-19 | no items, loading, table view, filter 'All', sort 'newest', page 1, and one fetch issued for exactly that |
| TrendFeed.TrendFeedView.LoadData | frontend/components/TrendFeedView.tsx:21-35 | sets loading and issues one fetch with exactly (sortBy, platform parameter, page) |
| TrendFeed.TrendFeedView.FilterOrSortChanged | frontend/components/TrendFeedView.tsx:37-43 | the fetch effect runs with the old page, then the page resets to 1, which fetches again if the page changed |
| TrendFeed.TrendFeedView.SetPlatformFilter | frontend/components/TrendFeedView.tsx:61-63 | a new filter resets the page to 1 and fetches with it; the same filter changes nothing; the last fetch always matches the state |
| TrendFeed.TrendFeedView.SetSortBy | frontend/components/TrendFeedView.tsx:77-79 | a new sort resets the page to 1 and fetches with it; the same sort changes nothing |
| TrendFeed.TrendFeedView.Prev | frontend/components/TrendFeedView.tsx:174-176 | disabled on page 1 or while loading; otherwise page - 1 and one fetch of it; the page never drops below 1 |
| TrendFeed.TrendFeedView.Next | frontend/components/TrendFeedView.tsx:187-189 | disabled with fewer than 20 items or while loading; otherwise page + 1 and one fetch of it |
| TrendFeed.TrendFeedView.SetViewMode | frontend/components/TrendFeedView.tsx:91-103 | switches the view mode when the controls are shown and changes nothing else |
| TrendFeed.TrendFeedView.Settle | frontend/components/TrendFeedView.tsx:29-34 | a success replaces the items wholesale, a failure keeps them, and loading ends either way |
| DashboardView.GetStatusColor | frontend/components/DashboardView.tsx:23-46 | emerald iff the lower-cased status is nominal or ok, amber iff warning, rose iff neither: total and exclusive |
| DashboardView.StatusColorIgnoresCase | frontend/components/DashboardView.tsx:24 | statuses equal up to ASCII case get the same colour |
| DashboardView.StatusColorAfterMapping | frontend/components/DashboardView.tsx:23-24 | the client's status mapping never changes the colour a status gets |
| DashboardView.NominalIsEmerald | frontend/components/DashboardView.tsx:25-31 | the analyzer's "NOMINAL" shows emerald end to end, and a missing status shows amber |
| DashboardView.RankLabel | frontend/components/DashboardView.tsx:124 | at least two digits; a leading '0' below rank 10, the plain number from 10 on |
| DashboardView.RankLabelValue | frontend/components/DashboardView.tsx:124 | the label of row i reads back as the 1-based rank i + 1 |
| DashboardView.RankLabelInjective | frontend/components/DashboardView.tsx:124 | no two rows share a rank label |
| DashboardView.Rows | frontend/components/DashboardView.tsx:117-124 | one row per leaderboard item, in order, each with its rank label |
| DashboardView.DashboardViewState.constructor | frontend/components/DashboardView.tsx:13-21 | no data, loading, and exactly one fetch on mount |
| DashboardView.DashboardViewState.Settle | frontend/components/DashboardView.tsx:16-21 | data is stored on success and kept on failure, loading ends, and nothing fetches again |
| DashboardView.FailedFetchKeepsLoader | frontend/components/DashboardView.tsx:48 | after a failed first fetch the loader stays shown |
| TrendChart.FillKeys | frontend/components/TrendChart.tsx:13-15 | an entry's keys are exactly the listed platforms |
| TrendChart.FillLastWins | frontend/components/TrendChart.tsx:13-15 | a platform's key holds the value of its last listing at that index (0 when missing), so a later duplicate overwrites an earlier one |
| TrendChart.MergeSeries | frontend/components/TrendChart.tsx:11-17 | no stats give no entries; otherwise one entry per point of the first history, named by its timestamp, with the filled values |
| TrendChart.BuildEntry | frontend/components/TrendChart.tsx:12-16 | the key-by-key loop leaves exactly the dictionary the fill describes |
| GoErrors.DetailError | internal/repoerror/errors.go:28-30 | a detail error's text is its message |
| GoErrors.Errorf | internal/repoerror/errors.go:53 | `%w: %w` joins both texts with ": " and wraps both errors in order |
| RepoError.DetailOf | internal/repoerror/errors.go:43-49 | message, code, constraint, detail and table are copied |
| RepoError.Parse | internal/repoerror/errors.go:32-61 | nil iff nil; a no-rows chain gives ErrNotFound; a chain without a Postgres error is returned unchanged |
| RepoError.SentinelWithDetail | internal/repoerror/errors.go:53-55 | a sentinel wrapped with a detail is exactly that sentinel, exposes the detail, and holds no Postgres error |
| RepoError.DuplicateIsClassified | internal/repoerror/errors.go:52-53 | code 23505 gives an error that is ErrDuplicate (and neither other sentinel), whose text ends in the Postgres message |
| RepoError.CheckViolationIsClassified | internal/repoerror/errors.go:54-55 | code 23514 gives an error that is ErrConstraintViolated (and neither other sentinel) |
| RepoError.OtherPgErrorIsDetail | internal/repoerror/errors.go:41-58 | any other code gives the detail error with the copied fields, whose text is the Postgres message |
| RepoError.NoRowsBeforePostgres | internal/repoerror/errors.go:37-39 | a chain with no-rows and a Postgres error is ErrNotFound: the no-rows check comes first |
| RepoError.ParseIdempotent | internal/repoerror/errors.go:32-61 | parsing a parsed error changes nothing |
| ApiErrors.MsgForTag | internal/api/errors.go:33-47 | "Invalid value" iff the tag is unknown; min and max messages embed the param verbatim between their prefix and suffix |
| ApiErrors.ParamOf | internal/api/errors.go:39-42 | a param read from a length message rebuilds that message |
| ApiErrors.TagOfMessageRoundTrip | internal/api/errors.go:33-47 | a known tag's message identifies the tag |
| ApiErrors.MessagesDistinct | internal/api/errors.go:33-47 | different known tags never give the same message |
| ApiErrors.LengthMessageInjective | internal/api/errors.go:39-42 | a min or max message determines its param |
| ApiErrors.ValidationErrorToAPIErrors | internal/api/errors.go:15-30 | nil iff the chain holds no validation errors; otherwise the same length and order, with each field copied and its message from the tag |
| ApiResponse.RespondSuccess | internal/api/response.go:23-29 | 200, success true, the given data, not aborted |
| ApiResponse.RespondCreated | internal/api/response.go:31-37 | 201, success true, the given data |
| ApiResponse.RespondError | internal/api/response.go:39-48 | the given status, success false, the message and details, and the chain aborted |
| ApiResponse.RespondBadRequest | internal/api/response.go:50-52 | 400 "Invalid request" with the details |
| ApiResponse.RespondUnauthorized | internal/api/response.go:54-56 | 401 "Unauthorized" without details |
| ApiResponse.RespondNotFound | internal/api/response.go:58-60 | 404 "Resource not found" without details |
| ApiResponse.RespondInternalServerError | internal/api/response.go:62-64 | 500 with the fixed message, without details |
| ApiHelpers.BindJSONAndValidate | internal/api/helpers.go:8-26 | true iff binding succeeds, and then nothing is written; each failure writes exactly one aborted 400 "Invalid request": a bare EOF gives "Request body is empty", validation errors give the translated list, and anything else gives the error's text |
| ApiHelpers.EmptyValidationReportsEmptyList | internal/api/helpers.go:16-20 | an empty validation error list still reports an empty field list, not the text |
| MessageFormatter.Hashtags | services/parsers/tik-tok-parser/src/message_formatter.py:19-22 | every hashtag is the non-empty name of an entry of type 1; no such entry gives no hashtags |
| MessageFormatter.HashtagsAppend | services/parsers/tik-tok-parser/src/message_formatter.py:21-22 | the comprehension keeps order: hashtags of a concatenation concatenate |
| MessageFormatter.HashtagsSingle | services/parsers/tik-tok-parser/src/message_formatter.py:21-22 | a single entry contributes its name exactly when it has type 1 and a truthy name |
| MessageFormatter.VideoUrl | services/parsers/tik-tok-parser/src/message_formatter.py:32 | every URL starts with the TikTok profile prefix |
| MessageFormatter.VideoUrlRoundTrip | services/parsers/tik-tok-parser/src/message_formatter.py:32 | with no '/' in the author id, the URL reads back as the rendered author and video ids |
| MessageFormatter.VideoUrlInjective | services/parsers/tik-tok-parser/src/message_formatter.py:32 | such URLs determine both rendered ids |
| MessageFormatter.MissingAuthorRendersAsNone | services/parsers/tik-tok-parser/src/message_formatter.py:32 | a missing author id renders "None", like an author named "None" |
| MessageFormatter.PublishedAt | services/parsers/tik-tok-parser/src/message_formatter.py:13-15 | none iff createTime is missing or 0, else the creation instant |
| MessageFormatter.FormatTikTokMessage | services/parsers/tik-tok-parser/src/message_formatter.py:2-53 | source "tiktok", data type "video", the given event time; id and description copied; stats renamed playCount→views … collectCount→saves; hashtags, music, author and follower count taken from their sub-objects; original sound defaults to false |
| MessageFormatter.MissingSubObjectsGiveNone | services/parsers/tik-tok-parser/src/message_formatter.py:6-10 | missing sub-objects give None fields, no hashtags, a non-original sound and "None" in the URL |
| MessageFormatter.SourceIsTikTokEverywhere | services/parsers/tik-tok-parser/src/message_formatter.py:25 | the message source is the trend feed's TikTok parameter and the client infers it as TikTok |
| MessageFormatter.Decode | services/virality-analyzer-service/internal/domain/models.go:5-38 | the analyzer keeps source, data type, id (null as ""), publication time and hashtags |
| MessageFormatter.FormattedMessageIsStoredAsVideo | services/parsers/tik-tok-parser/src/message_formatter.py:25-39 | each formatted message reaches the analyzer as a TikTok video message, with the id and the four renamed counters (missing as 0) |

## Left out

- Floating point:
  - `math.Log` in the virality formula is not modelled. `SnapshotStore.ViralityScore` takes the log-based score as a parameter, so only the cap at 100 is stated.
  - The engagement rate is computed over exact reals.
- SnapshotStore.ViralityScore: does not model the float-to-int truncation of `int(math.Log(x+1)*5)`, because the logarithm is not modelled.
- Clocks:
  - `time.Now()`, `new Date()` and `datetime.now` are parameters.
  - ISO rendering of instants is not modelled. The formatter's `published_at` is the creation instant itself.
- I/O:
  - MongoDB, Kafka, Redis, the API gateway, `fetch`, logging and `time.Sleep` are not modelled.
  - Database answers and failures are parameters: each find answers, fails or fails to decode, and each count succeeds or fails.
  - Sleeps are listed as waits.
  - `window.location.reload()` is counted, not performed.
  - `getAuthHeader`, which only reads local storage, is not modelled.
- Query.SortBy: MongoDB leaves the order of equal keys unspecified. The model fixes one order (stable insertion).
- Query.Find: models MongoDB's limit rules:
  - a limit of 0 means no limit;
  - a negative limit uses its absolute value;
  - a negative skip is a server error.
- DashboardHandler.GetStats: `EstimatedDocumentCount` is modelled as the exact count.
- SnapshotStore.GetLeaderboard: when decoding the cursor fails, Go returns the documents decoded so far along with the error; the model returns only the error. The same holds for SnapshotStore.GetVideoTrajectory.
- The constructor mismatch is not modelled. `router.go:17` calls a two-argument constructor, but `dashboard_handler.go:21` declares one argument. The handler is modelled on its own, against the snapshots collection, as written.
- JSON decoding on the Go side is not modelled beyond `MessageFormatter.Decode`: int64 overflow of counters and malformed payloads are left out.
- Domain stats are unbounded integers, so `Comments*5` and `Shares*10` do not wrap.
- Text.ToLower: ASCII case mapping only. JavaScript's Unicode case mapping is not modelled.
- ApiClient.UpperFirst: ASCII case mapping only. JavaScript's `toUpperCase` can lengthen a character (`ß` becomes `SS`), which the model does not capture.
- JavaScript numbers are integers here:
  - NaN is not modelled: the counters of `api.ts` use `??`, which keeps NaN, and only the chart's `|| 0` would replace it;
  - fractional metrics are not modelled.
- ApiClient.MapBackendToFrontend: one `nowIso` stands for both `new Date()` readings (api.ts:36-37), and MapAll, MapTrending and MapDashboard pass the same one to every item; the program reads the clock separately each time, so a missing `published_at` and `parsedAt` may differ by milliseconds and items may differ from each other.
- ApiClient.ResponseOutcome: a 2xx response whose body is not JSON yields `BodyNotJson`. The JSON parser's own error text is not modelled.
- TrendFeed.TrendFeedView.Settle: a settle is not matched to the request it answers. A stale response arriving after a newer request is applied like any other.
- TrendFeed.TrendFeedView.SetPlatformFilter: accepts any string. The select offers only All, TikTok, YouTube and Instagram.
- React rendering, markup and colour class names are not modelled. The three colour schemes are a datatype.
- Sub-objects that are present but null are not modelled. In Python they make `.get` raise; in JavaScript `||` treats them as missing.
- MessageFormatter.FormatTikTokMessage: a `music.original` that is present but null yields false here, where Python yields None.
- MessageFormatter.FormatTikTokMessage: Python's `== 1` also accepts `True` and `1.0`. Only integer types are modelled.
- MessageFormatter.FormatTikTokMessage: ids are texts, so an integer id rendered by the f-string is not modelled.
- ApiHelpers.BindJSONAndValidate: `ShouldBindJSON` is not modelled; its outcome is the parameter.
- Go error chains cover only the kinds used here:
  - sentinels;
  - `*pgconn.PgError`;
  - `PGErrorDetail`;
  - validation errors;
  - `fmt.Errorf` wrapping;
  - plain errors.
- ConnectWithRetry: does not model context cancellation or the returned client and error text.
- TrendChart: rendering and axis formatting are not modelled. `viralVelocity` is carried but unused.

## Findings

| source | as written | input that shows it | evidently intended | confidence | as-written member | corrected member |
|---|---|---|---|---|---|---|
| services/virality-analyzer-service/internal/api/handlers/dashboard_handler.go:125 | the trajectory filters snapshots on `video_platform_id` | one saved snapshot with `video_id` "v1", and a trajectory request for "v1" | filter on `video_id`, the field the writer stores (mongo.go:93), so the saved snapshot is returned | high (not executed) | DashboardHandler.TrajectoryAlwaysEmpty | SnapshotStore.GetVideoTrajectory |
| services/virality-analyzer-service/internal/api/handlers/dashboard_handler.go:64-67 | the trending platform filter is `{source: platform}` on the snapshots collection | any snapshots and `?platform=tiktok`: snapshot documents have no `source` | filter the videos collection, where `source` is stored (mongo.go:148-152) | high (not executed) | DashboardHandler.PlatformFilterMatchesNothing | SnapshotStore.GetTrendingVideos |
