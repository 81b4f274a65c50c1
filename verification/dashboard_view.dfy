/**
 * The dashboard view: it fetches the dashboard once on mount, shows a
 * loader until data has arrived, colours the system status, and lists the
 * leaderboard with a zero-padded rank per row.
 */
module DashboardView {
  import opened Wrappers
  import Text
  import ApiClient
  import SnapshotStore

  /** The three status colour schemes. */
  datatype StatusStyle = Emerald | Amber | Rose

  /**
   * `getStatusColor(status)`, compared case-insensitively: "nominal" or
   * "ok" is emerald, "warning" amber, and every other status rose.
   */
  function GetStatusColor(status: string): (style: StatusStyle)
    ensures style == Emerald <==> Text.ToLower(status) in {"nominal", "ok"}
    ensures style == Amber <==> Text.ToLower(status) == "warning"
    ensures style == Rose <==> Text.ToLower(status) !in {"nominal", "ok", "warning"}
  {
    var s := Text.ToLower(status);
    if s == "nominal" || s == "ok" then Emerald
    else if s == "warning" then Amber
    else Rose
  }

  /** The colour depends on the status only up to ASCII case. */
  lemma StatusColorIgnoresCase(a: string, b: string)
    requires Text.EqualsIgnoreCase(a, b)
    ensures GetStatusColor(a) == GetStatusColor(b)
  {
  }

  /**
   * The client's status mapping never changes the colour: the mapped
   * status is coloured as the raw status (or 'Warning' when it is
   * missing) would be.
   */
  lemma StatusColorAfterMapping(status: ApiClient.JsText)
    ensures GetStatusColor(ApiClient.MapStatus(status)) == GetStatusColor(ApiClient.OrElse(status, "Warning"))
  {
  }

  /**
   * End to end: the analyzer's fixed "NOMINAL" status reaches the view as
   * "NOMINAL" and is shown in emerald, and a dashboard answer without a
   * status is shown in amber.
   */
  lemma NominalIsEmerald(videos: seq<SnapshotStore.VideoDoc>)
    ensures var st := SnapshotStore.GetStats(videos, false).value.status;
      && ApiClient.MapStatus(ApiClient.Str(st)) == "NOMINAL"
      && GetStatusColor(ApiClient.MapStatus(ApiClient.Str(st))) == Emerald
    ensures GetStatusColor(ApiClient.MapStatus(ApiClient.Undefined)) == Amber
  {
    assert SnapshotStore.GetStats(videos, false).value.status == "NOMINAL";
    NominalKept();
    assert Text.ToLower("Warning") == "warning";
  }

  /** The client keeps "NOMINAL" as it is, and it lower-cases to "nominal". */
  lemma NominalKept()
    ensures Text.ToLower("NOMINAL") == "nominal"
    ensures ApiClient.MapStatus(ApiClient.Str("NOMINAL")) == "NOMINAL"
  {
    assert Text.ToLower("NOMINAL") == "nominal";
    var r := ApiClient.MapStatus(ApiClient.Str("NOMINAL"));
    assert r[0] == 'N' && r[1..] == "OMINAL";
    assert r == [r[0]] + r[1..];
  }

  /** The rank label of row `i`: `(i + 1).toString().padStart(2, '0')`. */
  function RankLabel(i: nat): (rank: string)
    ensures |rank| >= 2 && Text.AllDigits(rank)
    ensures i + 1 < 10 ==> rank[0] == '0' && |rank| == 2
    ensures i + 1 >= 10 ==> rank == Text.NatToString(i + 1)
  {
    Text.PadStart(Text.NatToString(i + 1), 2, '0')
  }

  /** A rank label reads back as the 1-based rank, so different rows never share a label. */
  lemma RankLabelValue(i: nat)
    ensures Text.DecimalValue(RankLabel(i)) == i + 1
  {
    var s := Text.NatToString(i + 1);
    Text.DecimalValueOfNatToString(i + 1);
    if |s| < 2 {
      Text.DecimalValueLeadingZeros(2 - |s|, s);
    }
  }

  lemma RankLabelInjective(i: nat, j: nat)
    requires RankLabel(i) == RankLabel(j)
    ensures i == j
  {
    RankLabelValue(i);
    RankLabelValue(j);
  }

  /** One leaderboard row: its rank label and the item. */
  datatype Row = Row(rank: string, item: ApiClient.ContentItem)

  /** The leaderboard table: one row per item, in the order received. */
  function Rows(leaderboard: seq<ApiClient.ContentItem>): (rows: seq<Row>)
    ensures |rows| == |leaderboard|
    ensures forall i :: 0 <= i < |rows| ==> rows[i].item == leaderboard[i] && rows[i].rank == RankLabel(i)
  {
    seq(|leaderboard|, i requires 0 <= i < |leaderboard| => Row(RankLabel(i), leaderboard[i]))
  }

  class DashboardViewState {
    var data: Option<ApiClient.DashboardData>
    var loading: bool
    /** How many times the dashboard has been fetched. */
    var fetches: nat

    /** Mounting: no data, loading, and the one fetch the mount effect issues. */
    constructor ()
      ensures data.None? && loading && fetches == 1
    {
      data := None;
      loading := true;
      fetches := 1;
    }

    /** The loader is shown while loading and whenever there is no data, a failed fetch included. */
    predicate ShowsLoader()
      reads this
    {
      loading || data.None?
    }

    /**
     * The fetch settles: its data (`Some`) is stored, a failure (`None`)
     * stores nothing, and loading ends either way. Nothing fetches again.
     */
    method Settle(outcome: Option<ApiClient.DashboardData>)
      modifies this
      ensures !loading && fetches == old(fetches)
      ensures data == if outcome.Some? then outcome else old(data)
    {
      if outcome.Some? {
        data := outcome;
      }
      loading := false;
    }
  }

  /** After a failed first fetch the loader stays up for good. */
  method FailedFetchKeepsLoader() returns (shows: bool)
    ensures shows
  {
    var view := new DashboardViewState();
    view.Settle(None);
    shows := view.ShowsLoader();
  }
}
