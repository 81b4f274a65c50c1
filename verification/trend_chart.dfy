/**
 * The trend chart's series merge. The first platform's history fixes the
 * x-axis: one chart entry per point of it, named by that point's
 * timestamp. Each entry is a fresh dictionary filled platform by platform
 * with that platform's value at the same index, or 0 when the platform has
 * no point there or the point has no value. Platforms sharing a name write
 * to the same key, so the later one wins.
 */
module TrendChart {
  import opened Wrappers
  import ApiClient

  /** One point of a platform's history; a value absent from the JSON is `None`. */
  datatype TrendPoint = TrendPoint(timestamp: string, value: Option<int>)

  /** `PlatformStats`: a platform, its velocity and its trend history. */
  datatype PlatformStats = PlatformStats(platform: ApiClient.Platform, viralVelocity: int, trendHistory: seq<TrendPoint>)

  /** One merged entry: the x-axis name and one value per platform key. */
  datatype ChartEntry = ChartEntry(name: string, values: map<ApiClient.Platform, int>)

  /** `s.trendHistory[index]?.value || 0`. */
  function PointValue(s: PlatformStats, index: nat): int {
    if index < |s.trendHistory| then s.trendHistory[index].value.GetOr(0) else 0
  }

  /** The dictionary the inner loop leaves after visiting `stats` in order. */
  function Fill(stats: seq<PlatformStats>, index: nat): map<ApiClient.Platform, int>
    decreases |stats|
  {
    if stats == [] then map[]
    else
      var last := stats[|stats| - 1];
      Fill(stats[..|stats| - 1], index)[last.platform := PointValue(last, index)]
  }

  /** The keys of an entry are exactly the platforms listed. */
  lemma {:induction false} FillKeys(stats: seq<PlatformStats>, index: nat)
    ensures forall p :: p in Fill(stats, index) <==> exists i :: 0 <= i < |stats| && stats[i].platform == p
    decreases |stats|
  {
    if stats != [] {
      var init := stats[..|stats| - 1];
      FillKeys(init, index);
      forall p
        ensures p in Fill(stats, index) <==> exists i :: 0 <= i < |stats| && stats[i].platform == p
      {
        if p in Fill(init, index) {
          var i :| 0 <= i < |init| && init[i].platform == p;
          assert stats[i].platform == p;
        }
        if exists i :: 0 <= i < |stats| && stats[i].platform == p {
          var i :| 0 <= i < |stats| && stats[i].platform == p;
          if i < |init| {
            assert init[i].platform == p;
          }
        }
      }
    }
  }

  /**
   * A platform's key holds the value of the last listed stats with that
   * platform: a later duplicate overwrites an earlier one.
   */
  lemma {:induction false} FillLastWins(stats: seq<PlatformStats>, index: nat, i: nat)
    requires i < |stats|
    requires forall j :: i < j < |stats| ==> stats[j].platform != stats[i].platform
    ensures stats[i].platform in Fill(stats, index)
    ensures Fill(stats, index)[stats[i].platform] == PointValue(stats[i], index)
    decreases |stats|
  {
    var init := stats[..|stats| - 1];
    if i < |stats| - 1 {
      FillLastWins(init, index, i);
      assert stats[|stats| - 1].platform != stats[i].platform;
    }
  }

  /**
   * The series: for each point of the first history, one entry named by
   * its timestamp whose values the inner loop fills.
   */
  method MergeSeries(stats: seq<PlatformStats>) returns (data: seq<ChartEntry>)
    ensures stats == [] ==> data == []
    ensures stats != [] ==> |data| == |stats[0].trendHistory|
    ensures forall i :: 0 <= i < |data| ==>
              data[i].name == stats[0].trendHistory[i].timestamp && data[i].values == Fill(stats, i)
  {
    if stats == [] {
      return [];
    }
    var history := stats[0].trendHistory;
    data := [];
    for index := 0 to |history|
      invariant |data| == index
      invariant forall i :: 0 <= i < index ==>
                  data[i].name == history[i].timestamp && data[i].values == Fill(stats, i)
    {
      var entry := BuildEntry(stats, index, history[index].timestamp);
      data := data + [entry];
    }
  }

  /** One entry: a fresh dictionary named `name`, filled key by key in the order of `stats`. */
  method BuildEntry(stats: seq<PlatformStats>, index: nat, name: string) returns (entry: ChartEntry)
    ensures entry.name == name && entry.values == Fill(stats, index)
  {
    var values: map<ApiClient.Platform, int> := map[];
    for k := 0 to |stats|
      invariant values == Fill(stats[..k], index)
    {
      assert stats[..k + 1][..k] == stats[..k];
      values := values[stats[k].platform := PointValue(stats[k], index)];
    }
    assert stats[..|stats|] == stats;
    entry := ChartEntry(name, values);
  }
}
