/**
 Data preparation for the radar chart: one point per item in item order,
 the polygon closed by repeating its first point.
 */
module Radar {
  import opened Rubric
  import opened Aggregation

  /** The radial values and angular labels handed to the polar trace. */
  datatype PolarTrace = PolarTrace(r: seq<int>, theta: seq<string>)

  /** The radial axis range of the chart: an item total lies in 0..20. */
  const RadialMin: int := 0
  const RadialMax: int := 4 * MaxLevel

  /** A polygon closed by appending its first point. */
  function Closed<T>(s: seq<T>): seq<T>
    requires |s| > 0
  {
    s + [s[0]]
  }

  /** The labels and values of show_radar_chart, each closed for the polar trace. */
  function RadarTrace(itemTotals: map<int, int>): (tr: PolarTrace)
    requires forall i | 1 <= i <= ItemCount :: i in itemTotals
    ensures |tr.r| == ItemCount + 1 && |tr.theta| == ItemCount + 1
    ensures forall k | 0 <= k < ItemCount :: tr.r[k] == itemTotals[k + 1]
    ensures forall k | 0 <= k < ItemCount :: tr.theta[k] == ItemName(k + 1)
    ensures tr.r[ItemCount] == tr.r[0] && tr.theta[ItemCount] == tr.theta[0]
  {
    var labels := seq(ItemCount, k requires 0 <= k < ItemCount => ItemName(k + 1));
    var values := seq(ItemCount, k requires 0 <= k < ItemCount => itemTotals[k + 1]);
    PolarTrace(Closed(values), Closed(labels))
  }

  /** Reading the item totals back off the chart's first fifteen points. */
  function TotalsOnChart(tr: PolarTrace): map<int, int>
    requires |tr.r| >= ItemCount
  {
    map i | i in ItemIds :: tr.r[i - 1]
  }

  /** The chart shows every item total exactly: the item totals can be read back from it. */
  lemma RadarShowsTotals(itemTotals: map<int, int>)
    requires forall i :: i in itemTotals <==> 1 <= i <= ItemCount
    ensures TotalsOnChart(RadarTrace(itemTotals)) == itemTotals
  {
    var back := TotalsOnChart(RadarTrace(itemTotals));
    assert forall i :: i in back <==> i in itemTotals;
  }

  /** For a well-formed reply every point of the chart lies within the radial axis range. */
  lemma RadarWithinRange(m: ScoreMatrix)
    requires WellFormed(m)
    ensures forall k | 0 <= k < |RadarTrace(ItemTotals(m)).r| ::
      RadialMin <= RadarTrace(ItemTotals(m)).r[k] <= RadialMax
  {
  }
}
