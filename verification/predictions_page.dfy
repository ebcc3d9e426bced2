/** The analytics page: fleet-wide revenue and loss figures, the demand list,
    the three risk cards, per-store rollups and the summary counters, all
    computed from one inventory list and one transfer list. */
module PredictionsPage {

  import opened Records
  import opened Classify
  import opened Seqs
  import opened Numeric
  import opened InventoryPage

  /** Demand above this counts as "high demand" on this page (the inventory
      table uses HighDemandAbove = 250 instead). */
  const PortfolioHighDemandAbove: real := 200.0
  /** Length of the demand list. */
  const DemandListSize: nat := 10
  /** More expiring items than this make the expiry risk High. */
  const ExpiryRiskHighAbove: nat := 10
  /** More overstocked items than this make the overstock risk High. */
  const OverstockHighAbove: nat := 5
  /** Transfers longer than this many km count as long-distance. */
  const LongDistanceKm: real := 20.0
  /** More long-distance transfers than this make the transfer risk Medium. */
  const LongTransfersMediumAbove: nat := 5
  /** A store with more expiring items than this has High waste risk ... */
  const WasteHighAbove: nat := 3
  /** ... and with more than this (but not more than WasteHighAbove), Medium. */
  const WasteMediumAbove: nat := 1
  /** The cap on the efficiency percentage. */
  const EfficiencyCap: int := 100

  // ---------------------------------------------------------------- revenue and loss

  /** Projected revenue of one row. */
  function ItemRevenue(x: InventoryItem): real
  {
    x.expectedSales * x.finalPrice
  }

  /** Value of the stock on hand of one row. */
  function StockValue(x: InventoryItem): real
  {
    x.stock as real * x.finalPrice
  }

  function TotalRevenue(inv: seq<InventoryItem>): real
  {
    Sum(inv, ItemRevenue)
  }

  /** The projected revenue is zero for no rows, and each appended row adds
      its expected sales times its final price. */
  lemma TotalRevenueExtend(inv: seq<InventoryItem>, x: InventoryItem)
    ensures TotalRevenue([]) == 0.0
    ensures TotalRevenue(inv + [x]) == TotalRevenue(inv) + x.expectedSales * x.finalPrice
  {
    SumConcat(inv, [x], ItemRevenue);
    assert [x][1..] == [];
  }

  /** Stock value of the rows expiring within a week. */
  function PotentialLoss(inv: seq<InventoryItem>): real
  {
    Sum(Filter(inv, ExpiresWithinWeek), StockValue)
  }

  /** No expiring row means no potential loss; with non-negative stock and
      prices the loss is at most the value of all stock on hand. */
  lemma PotentialLossBounds(inv: seq<InventoryItem>)
    ensures (forall x :: x in inv ==> !ExpiresWithinWeek(x)) ==> PotentialLoss(inv) == 0.0
    ensures (forall x :: x in inv ==> x.stock >= 0 && x.finalPrice >= 0.0) ==>
              0.0 <= PotentialLoss(inv) <= Sum(inv, StockValue)
  {
    if forall x :: x in inv ==> !ExpiresWithinWeek(x) {
      FilterNone(inv, ExpiresWithinWeek);
    }
    if forall x :: x in inv ==> x.stock >= 0 && x.finalPrice >= 0.0 {
      SumFilterLe(inv, ExpiresWithinWeek, StockValue);
    }
  }

  /** Adding rows that do not expire within a week leaves the loss unchanged,
      and adding one that does raises it by that row's stock value. */
  lemma {:induction false} PotentialLossExtend(inv: seq<InventoryItem>, x: InventoryItem)
    ensures PotentialLoss([]) == 0.0
    ensures PotentialLoss(inv + [x]) ==
              PotentialLoss(inv) + (if ExpiresWithinWeek(x) then StockValue(x) else 0.0)
  {
    FilterConcat(inv, [x], ExpiresWithinWeek);
    SumConcat(Filter(inv, ExpiresWithinWeek), Filter([x], ExpiresWithinWeek), StockValue);
  }

  // ---------------------------------------------------------------- demand list

  datatype DemandPoint = DemandPoint(caption: string, value: int)

  function DemandLabel(x: InventoryItem): string
  {
    x.productName + " (" + x.storeId + ")"
  }

  function ToDemandPoint(x: InventoryItem): DemandPoint
  {
    DemandPoint(DemandLabel(x), JsRound(x.predictedDemand))
  }

  /** The "Top 10 Demand Predictions" chart: the first ten rows in input order. */
  function DemandPredictions(inv: seq<InventoryItem>): (r: seq<DemandPoint>)
    ensures |r| == if |inv| < DemandListSize then |inv| else DemandListSize
    ensures forall i :: 0 <= i < |r| ==>
              r[i].caption == inv[i].productName + " (" + inv[i].storeId + ")"
              && r[i].value as real - 0.5 <= inv[i].predictedDemand < r[i].value as real + 0.5
  {
    var n := if |inv| < DemandListSize then |inv| else DemandListSize;
    Map(inv[..n], ToDemandPoint)
  }

  /** Rows after the tenth never reach the demand list, however large their
      demand: the list is not ranked by demand. */
  lemma DemandListIgnoresLaterRows(inv: seq<InventoryItem>, later: seq<InventoryItem>)
    requires |inv| >= DemandListSize
    ensures DemandPredictions(inv + later) == DemandPredictions(inv)
  {
    assert (inv + later)[..DemandListSize] == inv[..DemandListSize];
  }

  // ---------------------------------------------------------------- risk cards

  datatype RiskKind = ExpiryRisk | OverstockRisk | TransferEfficiencyRisk

  /** One risk card: which risk, how many records it concerns, and its grade. */
  datatype Risk = Risk(kind: RiskKind, affected: nat, level: Level)

  predicate IsOverstocked(x: InventoryItem)
  {
    x.stock as real > x.expectedSales * 2.0
  }

  predicate IsLongDistance(t: Transfer)
  {
    t.distanceKm > LongDistanceKm
  }

  /** The three risk cards, always in this order. */
  function AssessRisks(inv: seq<InventoryItem>, transfers: seq<Transfer>): (r: seq<Risk>)
    ensures |r| == 3
    ensures r[0].kind == ExpiryRisk && r[0].affected == |Filter(inv, IsCritical)|
    ensures r[0].level == High <==> r[0].affected > 10
    ensures r[0].level == Medium <==> r[0].affected <= 10
    ensures r[1].kind == OverstockRisk && r[1].affected == |Filter(inv, IsOverstocked)|
    ensures r[1].level == High <==> r[1].affected > 5
    ensures r[1].level == Low <==> r[1].affected <= 5
    ensures r[2].kind == TransferEfficiencyRisk && r[2].affected == |Filter(transfers, IsLongDistance)|
    ensures r[2].level == Medium <==> r[2].affected > 5
    ensures r[2].level == Low <==> r[2].affected <= 5
  {
    var expiring := |Filter(inv, ExpiresWithinWeek)|;
    FilterExt(inv, ExpiresWithinWeek, IsCritical);
    var overstocked := |Filter(inv, IsOverstocked)|;
    var longHauls := |Filter(transfers, IsLongDistance)|;
    [ Risk(ExpiryRisk, expiring, if expiring > ExpiryRiskHighAbove then High else Medium),
      Risk(OverstockRisk, overstocked, if overstocked > OverstockHighAbove then High else Low),
      Risk(TransferEfficiencyRisk, longHauls, if longHauls > LongTransfersMediumAbove then Medium else Low) ]
  }

  // ---------------------------------------------------------------- store rollups

  /** The rows of one store, in input order. */
  function StoreItems(inv: seq<InventoryItem>, id: string): (r: seq<InventoryItem>)
    ensures forall x :: x in r <==> x in inv && x.storeId == id
  {
    Filter(inv, (x: InventoryItem) => x.storeId == id)
  }

  predicate AllStocked(items: seq<InventoryItem>)
  {
    forall x :: x in items ==> x.stock != 0
  }

  /** Expected sales over stock for one row. */
  function SellThrough(x: InventoryItem): real
    requires x.stock != 0
  {
    x.expectedSales / x.stock as real
  }

  /** Sum over the rows of expected sales divided by stock. */
  function SellThroughSum(items: seq<InventoryItem>): real
    requires AllStocked(items)
  {
    if |items| == 0 then 0.0 else SellThrough(items[0]) + SellThroughSum(items[1..])
  }

  lemma {:induction false} SellThroughSumAtLeast(items: seq<InventoryItem>, lo: real)
    requires AllStocked(items)
    requires forall x :: x in items ==> lo <= SellThrough(x)
    ensures |items| as real * lo <= SellThroughSum(items)
  {
    if |items| > 0 {
      assert items[0] in items;
      assert forall x :: x in items[1..] ==> x in items;
      SellThroughSumAtLeast(items[1..], lo);
      MulSucc(|items| - 1, lo);
    }
  }

  lemma {:induction false} SellThroughSumAtMost(items: seq<InventoryItem>, hi: real)
    requires AllStocked(items)
    requires forall x :: x in items ==> SellThrough(x) <= hi
    ensures SellThroughSum(items) <= |items| as real * hi
  {
    if |items| > 0 {
      assert items[0] in items;
      assert forall x :: x in items[1..] ==> x in items;
      SellThroughSumAtMost(items[1..], hi);
      MulSucc(|items| - 1, hi);
    }
  }

  /** Mean sell-through as a rounded percentage, capped at 100. */
  function Efficiency(items: seq<InventoryItem>): (e: int)
    requires |items| > 0 && AllStocked(items)
    ensures e <= EfficiencyCap
    ensures var m := SellThroughSum(items) / |items| as real * 100.0;
            (JsRound(m) <= EfficiencyCap ==> e as real - 0.5 <= m < e as real + 0.5)
            && (JsRound(m) > EfficiencyCap ==> e == EfficiencyCap)
  {
    MinInt(JsRound(SellThroughSum(items) / |items| as real * 100.0), EfficiencyCap)
  }

  /** Sell-through ratios within [0, 1] give an efficiency within [0, 100];
      ratios all at least 1 give exactly 100. */
  lemma EfficiencyBounds(items: seq<InventoryItem>)
    requires |items| > 0 && AllStocked(items)
    ensures (forall x :: x in items ==> 0.0 <= SellThrough(x) <= 1.0) ==> 0 <= Efficiency(items) <= 100
    ensures (forall x :: x in items ==> 1.0 <= SellThrough(x)) ==> Efficiency(items) == 100
  {
    var n := |items| as real;
    var total := SellThroughSum(items);
    if forall x :: x in items ==> 0.0 <= SellThrough(x) <= 1.0 {
      SellThroughSumAtLeast(items, 0.0);
      SellThroughSumAtMost(items, 1.0);
      DivBetween(total, n, 0.0, 1.0);
    }
    if forall x :: x in items ==> 1.0 <= SellThrough(x) {
      SellThroughSumAtLeast(items, 1.0);
      DivBetween(total, n, 1.0, total / n);
    }
  }

  /** Waste risk from the number of a store's rows expiring within a week. */
  function WasteRisk(items: seq<InventoryItem>): (w: Level)
    ensures w == High <==> |Filter(items, ExpiresWithinWeek)| > 3
    ensures w == Medium <==> 2 <= |Filter(items, ExpiresWithinWeek)| <= 3
    ensures w == Low <==> |Filter(items, ExpiresWithinWeek)| <= 1
  {
    var expiring := |Filter(items, ExpiresWithinWeek)|;
    if expiring > WasteHighAbove then High
    else if expiring > WasteMediumAbove then Medium
    else Low
  }

  /** The rollup of the store `id`. */
  function SummarizeStore(inv: seq<InventoryItem>, id: string): (s: StoreSummary)
    requires id in StoreIds(inv) && AllStocked(StoreItems(inv, id))
    ensures s.id == id && s.efficiency <= EfficiencyCap
    ensures |StoreItems(inv, id)| > 0
    ensures s.efficiency == Efficiency(StoreItems(inv, id))
    ensures s.wasteRisk == WasteRisk(StoreItems(inv, id))
    ensures s.revenue as real - 0.5 <= Sum(StoreItems(inv, id), ItemRevenue) < s.revenue as real + 0.5
  {
    var k :| 0 <= k < |inv| && StoreIds(inv)[k] == id;
    assert inv[k] in StoreItems(inv, id);
    var items := StoreItems(inv, id);
    StoreSummary(id, Efficiency(items), WasteRisk(items), JsRound(Sum(items, ItemRevenue)))
  }

  function SummarizeStores(inv: seq<InventoryItem>, ids: seq<string>): (r: seq<StoreSummary>)
    requires forall s :: s in ids ==> s in StoreIds(inv) && AllStocked(StoreItems(inv, s))
    ensures |r| == |ids|
    ensures forall i :: 0 <= i < |ids| ==> r[i] == SummarizeStore(inv, ids[i])
    ensures forall i :: 0 <= i < |ids| ==> r[i].id == ids[i] && r[i].efficiency <= EfficiencyCap
  {
    seq(|ids|, i requires 0 <= i < |ids| => SummarizeStore(inv, ids[i]))
  }

  /** One rollup per distinct store, in order of first appearance. */
  function StorePerformance(inv: seq<InventoryItem>): (r: seq<StoreSummary>)
    requires AllStocked(inv)
    ensures forall i :: 0 <= i < |r| ==> r[i].id in StoreIds(inv)
    ensures forall s :: s in StoreIds(inv) ==> exists i :: 0 <= i < |r| && r[i].id == s
    ensures forall i, j :: 0 <= i < j < |r| ==> r[i].id != r[j].id
    ensures forall i, j :: 0 <= i < j < |r| ==>
              FirstIndex(StoreIds(inv), r[i].id) < FirstIndex(StoreIds(inv), r[j].id)
    ensures forall i :: 0 <= i < |r| ==> r[i].efficiency <= 100
    ensures |r| <= |inv|
    ensures forall i :: 0 <= i < |r| ==> AllStocked(StoreItems(inv, r[i].id))
    ensures forall i :: 0 <= i < |r| ==> r[i] == SummarizeStore(inv, r[i].id)
  {
    var ids := Dedup(StoreIds(inv));
    StoreItemsStocked(inv);
    var r := SummarizeStores(inv, ids);
    StoreIdsMatch(r, ids, StoreIds(inv));
    r
  }

  /** With every row stocked, so is every store's share of the rows. */
  lemma StoreItemsStocked(inv: seq<InventoryItem>)
    requires AllStocked(inv)
    ensures forall id :: AllStocked(StoreItems(inv, id))
  {
  }

  /** Summaries whose ids are the distinct store ids in first-seen order. */
  lemma StoreIdsMatch(r: seq<StoreSummary>, ids: seq<string>, all: seq<string>)
    requires |r| == |ids| && ids == Dedup(all)
    requires forall i :: 0 <= i < |ids| ==> r[i].id == ids[i]
    ensures forall i :: 0 <= i < |r| ==> r[i].id in all
    ensures forall s :: s in all ==> exists i :: 0 <= i < |r| && r[i].id == s
    ensures forall i, j :: 0 <= i < j < |r| ==> r[i].id != r[j].id
    ensures forall i, j :: 0 <= i < j < |r| ==> FirstIndex(all, r[i].id) < FirstIndex(all, r[j].id)
  {
    forall s | s in all
      ensures exists i :: 0 <= i < |r| && r[i].id == s
    {
      var i :| 0 <= i < |ids| && ids[i] == s;
      assert r[i].id == s;
    }
  }

  /** The unrounded revenues of the stores in `ids`, added up. */
  function StoreRevenueTotal(ids: seq<string>, inv: seq<InventoryItem>): real
  {
    if |ids| == 0 then 0.0 else Sum(StoreItems(inv, ids[0]), ItemRevenue) + StoreRevenueTotal(ids[1..], inv)
  }

  /** Removing the first row removes its revenue from exactly the store it belongs to. */
  lemma {:induction false} StoreRevenueTotalStep(ids: seq<string>, inv: seq<InventoryItem>)
    requires |inv| > 0 && NoDups(ids)
    ensures StoreRevenueTotal(ids, inv) ==
              (if inv[0].storeId in ids then ItemRevenue(inv[0]) else 0.0) + StoreRevenueTotal(ids, inv[1..])
  {
    if |ids| > 0 {
      var k := ids[0];
      var x := inv[0];
      assert NoDups(ids[1..]);
      StoreRevenueTotalStep(ids[1..], inv);
      if x.storeId == k {
        assert StoreItems(inv, k) == [x] + StoreItems(inv[1..], k);
        SumConcat([x], StoreItems(inv[1..], k), ItemRevenue);
        assert x.storeId !in ids[1..];
      } else {
        assert StoreItems(inv, k) == StoreItems(inv[1..], k);
        assert x.storeId in ids <==> x.storeId in ids[1..];
      }
    }
  }

  /** Store groups partition the inventory: their revenues add up to the total. */
  lemma {:induction false} StoreRevenuePartition(ids: seq<string>, inv: seq<InventoryItem>)
    requires NoDups(ids)
    requires forall x :: x in inv ==> x.storeId in ids
    ensures StoreRevenueTotal(ids, inv) == TotalRevenue(inv)
    decreases |inv|
  {
    if |inv| == 0 {
      StoreRevenueTotalEmpty(ids, inv);
    } else {
      StoreRevenueTotalStep(ids, inv);
      assert forall x :: x in inv[1..] ==> x in inv;
      StoreRevenuePartition(ids, inv[1..]);
    }
  }

  lemma {:induction false} StoreRevenueTotalEmpty(ids: seq<string>, inv: seq<InventoryItem>)
    requires |inv| == 0
    ensures StoreRevenueTotal(ids, inv) == 0.0
  {
    if |ids| > 0 {
      StoreRevenueTotalEmpty(ids[1..], inv);
    }
  }

  /** The unrounded revenues of the stores listed by StorePerformance add up
      to the projected revenue. */
  lemma StorePerformanceRevenueTotal(inv: seq<InventoryItem>)
    ensures StoreRevenueTotal(Dedup(StoreIds(inv)), inv) == TotalRevenue(inv)
  {
    var ids := Dedup(StoreIds(inv));
    forall x | x in inv
      ensures x.storeId in ids
    {
      var i :| 0 <= i < |inv| && inv[i] == x;
      assert StoreIds(inv)[i] == x.storeId;
    }
    StoreRevenuePartition(ids, inv);
  }

  // ---------------------------------------------------------------- counters

  function DaysOf(x: InventoryItem): int
  {
    x.daysToExpiry
  }

  /** The mean days to expiry, rounded; undefined for an empty list. */
  function AvgDaysToExpiry(inv: seq<InventoryItem>): (r: int)
    requires |inv| > 0
    ensures r as real - 0.5 <= SumInt(inv, DaysOf) as real / |inv| as real < r as real + 0.5
  {
    JsRound(SumInt(inv, DaysOf) as real / |inv| as real)
  }

  /** The rounded mean lies within any range that holds every row's days. */
  lemma AvgDaysWithinRange(inv: seq<InventoryItem>, lo: int, hi: int)
    requires |inv| > 0
    requires forall x :: x in inv ==> lo <= x.daysToExpiry <= hi
    ensures lo <= AvgDaysToExpiry(inv) <= hi
  {
    var n := |inv|;
    var total := SumInt(inv, DaysOf);
    SumIntBounds(inv, DaysOf, lo, hi);
    assert n * lo <= total <= n * hi;
    CastMul(n, lo);
    CastMul(n, hi);
    assert n as real * lo as real <= total as real <= n as real * hi as real;
    DivBetween(total as real, n as real, lo as real, hi as real);
    var mean := total as real / n as real;
    assert lo as real <= mean <= hi as real;
    var r := JsRound(mean);
    assert r as real - 0.5 <= mean < r as real + 0.5;
  }

  predicate IsPortfolioHighDemand(x: InventoryItem)
  {
    x.predictedDemand > PortfolioHighDemandAbove
  }

  function HighDemandCount(inv: seq<InventoryItem>): nat
  {
    |Filter(inv, IsPortfolioHighDemand)|
  }

  /** The high-demand count is zero for no rows, and each appended row adds
      one exactly when its demand is above 200. */
  lemma HighDemandCountExtend(inv: seq<InventoryItem>, x: InventoryItem)
    ensures HighDemandCount([]) == 0
    ensures HighDemandCount(inv + [x]) == HighDemandCount(inv) + (if x.predictedDemand > 200.0 then 1 else 0)
  {
    FilterConcat(inv, [x], IsPortfolioHighDemand);
    assert [x][1..] == [];
  }

  /** The page's high-demand count (above 200) is at least the inventory
      table's (above 250), and both are at most the number of rows. */
  lemma HighDemandThresholdsNested(inv: seq<InventoryItem>)
    ensures ComputeStats(inv).highDemandItems <= HighDemandCount(inv) <= |inv|
  {
    FilterCountMono(inv, IsHighDemand, IsPortfolioHighDemand);
  }

  // ---------------------------------------------------------------- snapshot

  datatype Analytics = Analytics(
    totalRevenue: real,
    potentialLoss: real,
    demandPredictions: seq<DemandPoint>,
    risks: seq<Risk>,
    storePerformance: seq<StoreSummary>,
    totalProducts: nat,
    totalTransfers: nat,
    avgDaysToExpiry: int,
    highDemandItems: nat)

  /** One full analytics pass: every figure is the one its own member states,
      and the counters are the list lengths. */
  function GenerateAnalytics(inv: seq<InventoryItem>, transfers: seq<Transfer>): (a: Analytics)
    requires |inv| > 0 && AllStocked(inv)
    ensures a.totalProducts == |inv| && a.totalTransfers == |transfers|
    ensures |a.demandPredictions| == if |inv| < DemandListSize then |inv| else DemandListSize
    ensures |a.risks| == 3
    ensures 1 <= |a.storePerformance| <= |inv|
    ensures a.highDemandItems <= |inv|
    ensures (forall x :: x in inv ==> x.daysToExpiry > 7) ==> a.potentialLoss == 0.0
    ensures a.totalRevenue == TotalRevenue(inv) && a.potentialLoss == PotentialLoss(inv)
    ensures a.demandPredictions == DemandPredictions(inv) && a.risks == AssessRisks(inv, transfers)
    ensures a.storePerformance == StorePerformance(inv)
    ensures a.avgDaysToExpiry == AvgDaysToExpiry(inv) && a.highDemandItems == HighDemandCount(inv)
  {
    PotentialLossBounds(inv);
    var stores := StorePerformance(inv);
    assert StoreIds(inv)[0] in StoreIds(inv);
    Analytics(
      TotalRevenue(inv),
      PotentialLoss(inv),
      DemandPredictions(inv),
      AssessRisks(inv, transfers),
      stores,
      |inv|,
      |transfers|,
      AvgDaysToExpiry(inv),
      HighDemandCount(inv))
  }

  // ---------------------------------------------------------------- worked examples

  function SampleItem(stock: int, finalPrice: real, days: int, expectedSales: real): InventoryItem
  {
    InventoryItem(1, "Milk", "S1", stock, 10, "2025-07-20", days, 0.0, finalPrice, finalPrice, 0.0, 0.0, expectedSales)
  }

  /** A one-row store with stock 10 and expected sales 5 has efficiency 50. */
  lemma EfficiencyExample()
    ensures Efficiency([SampleItem(10, 1.0, 20, 5.0)]) == 50
  {
    var items := [SampleItem(10, 1.0, 20, 5.0)];
    assert SellThroughSum(items) == 0.5;
  }

  /** Only the row expiring within a week contributes to the potential loss. */
  lemma PotentialLossExample()
    ensures PotentialLoss([SampleItem(10, 5.0, 3, 0.0), SampleItem(20, 2.0, 40, 0.0)]) == 50.0
  {
    var a := SampleItem(10, 5.0, 3, 0.0);
    var b := SampleItem(20, 2.0, 40, 0.0);
    assert [a, b][1..] == [b];
    assert Filter([b], ExpiresWithinWeek) == [];
    assert Filter([a, b], ExpiresWithinWeek) == [a];
    assert Sum([a], StockValue) == 50.0;
  }
}
