/** The store revenue chart: header statistics, the top performer and the
    label and data series of the line chart, from the per-store rollups. */
module RevenueChart {

  import opened Records
  import opened Results
  import opened Seqs

  function RevenueOf(s: StoreSummary): int
  {
    s.revenue
  }

  function TotalRevenue(stores: seq<StoreSummary>): int
  {
    SumInt(stores, RevenueOf)
  }

  /** The total is 0 for no stores, and each appended store adds its revenue. */
  lemma TotalRevenueExtend(stores: seq<StoreSummary>, s: StoreSummary)
    ensures TotalRevenue([]) == 0
    ensures TotalRevenue(stores + [s]) == TotalRevenue(stores) + s.revenue
  {
    SumIntConcat(stores, [s], RevenueOf);
    assert [s][1..] == [];
  }

  /** Mean store revenue, 0 when there are no stores. */
  function AvgRevenue(stores: seq<StoreSummary>): (a: real)
    ensures |stores| > 0 ==> a * |stores| as real == TotalRevenue(stores) as real
    ensures |stores| == 0 ==> a == 0.0
  {
    if |stores| > 0 then TotalRevenue(stores) as real / |stores| as real else 0.0
  }

  /** `Math.max(...revenues)`, or 0 when there are no stores. */
  function MaxRevenue(stores: seq<StoreSummary>): (m: int)
    ensures forall i :: 0 <= i < |stores| ==> stores[i].revenue <= m
    ensures |stores| > 0 ==> exists i :: 0 <= i < |stores| && stores[i].revenue == m
    ensures |stores| == 0 ==> m == 0
  {
    if |stores| == 0 then 0
    else if |stores| == 1 then stores[0].revenue
    else
      var rest := MaxRevenue(stores[1..]);
      assert forall i :: 1 <= i < |stores| ==> stores[i] == stores[1..][i - 1];
      if stores[0].revenue >= rest then stores[0].revenue else rest
  }

  /** The first store whose revenue equals the maximum; absent for no stores. */
  function TopStore(stores: seq<StoreSummary>): (t: Option<StoreSummary>)
    ensures t.Some? <==> |stores| > 0
    ensures t.Some? ==> exists i :: 0 <= i < |stores| && stores[i] == t.value
                          && (forall j :: 0 <= j < |stores| ==> stores[j].revenue <= stores[i].revenue)
                          && (forall j :: 0 <= j < i ==> stores[j].revenue < stores[i].revenue)
  {
    var m := MaxRevenue(stores);
    match FindFirst(stores, (s: StoreSummary) => s.revenue == m)
    case None => None
    case Some(i) => Some(stores[i])
  }

  /** The "Top Performer" card. */
  function TopStoreText(stores: seq<StoreSummary>): (text: string)
    ensures |stores| == 0 <==> text == "N/A"
  {
    match TopStore(stores)
    case None => "N/A"
    case Some(s) => "Store " + s.id
  }

  function StoreLabel(s: StoreSummary): string
  {
    "Store " + s.id
  }

  /** The chart's x-axis labels, one per store, in store order. */
  function ChartLabels(stores: seq<StoreSummary>): (labels: seq<string>)
    ensures |labels| == |stores|
    ensures forall i :: 0 <= i < |stores| ==> labels[i] == "Store " + stores[i].id
  {
    Map(stores, StoreLabel)
  }

  /** The chart's data series, one point per store, in store order. */
  function ChartData(stores: seq<StoreSummary>): (data: seq<int>)
    ensures |data| == |stores|
    ensures forall i :: 0 <= i < |stores| ==> data[i] == stores[i].revenue
  {
    Map(stores, RevenueOf)
  }

  /** The top performer is plotted, and its point is the highest of the series. */
  lemma TopStoreIsHighestPoint(stores: seq<StoreSummary>)
    requires |stores| > 0
    ensures exists i :: 0 <= i < |stores| && ChartLabels(stores)[i] == TopStoreText(stores)
                        && forall j :: 0 <= j < |stores| ==> ChartData(stores)[j] <= ChartData(stores)[i]
  {
    var t := TopStore(stores).value;
    var i :| 0 <= i < |stores| && stores[i] == t
             && (forall j :: 0 <= j < |stores| ==> stores[j].revenue <= stores[i].revenue);
    assert ChartLabels(stores)[i] == TopStoreText(stores);
  }
}
