# SmartStockX decision logic in Dafny

SmartStockX is a retail-inventory dashboard with a pricing and redistribution
engine behind it. A store network uploads its inventory (product batches per
store, with stock, expiry date, shelf life, average daily sales and MRP) and a
store-to-store distance table. The engine does four things:

- derives days to expiry, the remaining share of shelf life and the expected
  sales;
- takes a demand prediction for each row;
- prices every row with a bounded dynamic discount;
- greedily suggests stock transfers from stores with an expiring surplus to
  stores short of demand in the same batch.

The React pages then classify, filter, count and aggregate the resulting rows.

This project models that decision logic as pure functions over immutable
records and sequences, and proves what the code promises.

**Frontend modules**
- `Records`: the record shapes.
- `Classify`: the threshold classifiers.
- `InventoryPage`: the search and store filter, the store drop-down, the counters and the 20-row window.
- `PredictionsPage`: the analytics pass.
- `TransferPage`: the transfer summary cards and ratio bar.
- `RevenueChart`: the store revenue chart.

**Backend modules**
- `Discount`: the discount formula shared by both back ends.
- `Engine`: the column check, feature derivation and pricing.
- `Matcher`: the greedy transfer matcher, as a recursive scan plus an iterative loop proved equal to it.
- `Pipeline`: the engine's entry point.
- `LegacyInventory`: the older per-record model with two-decimal rounding.

**Support modules**
- `Numeric`: JavaScript `Math.round`, Python `int()` and Python `round(x, 2)` over reals.
- `Results`: `Option` and `Result`.
- `Seqs` and `Sorting`: filter, sum, dedup, first-match and a stable sort.

Three modelling facts are worth knowing before reading the table.

**When the discount is exactly the base.** The dynamic part of the discount is
half the unsold share times the urgency. So the discount equals the base in
two situations:
- nothing is left unsold, or stock is zero;
- the urgency is zero, which happens when the row has a remaining ratio of at
  least 1 and more than two days to expiry.

`Discount.DiscountIsBaseIff` states both directions.

**Donor surplus carries over; receiver shortfall does not.** The matcher
lowers a donor's surplus as it sends. Each donor's scan, however, reads every
receiver's shortfall afresh: the code adds the sent quantity back on a
per-row copy of the receiver. The model therefore bounds quantities per donor
only. `Matcher.ShortfallReadAfreshPerDonor` shows two donors both filling the
same shortfall of 5.

**Three behaviours of the code the model keeps:**
- The per-store efficiency divides by each row's stock, and the mean days to
  expiry divides by the row count, both without a guard. The model states the
  divisors as preconditions: stock `!= 0` in the store's rows, and a
  non-empty list. It invents no fallback value.
- The "Top 10 Demand Predictions" list is the first ten rows in input order.
  It is not the ten largest.
- The inventory table counts high demand above 250. The analytics page counts
  it above 200. Both constants are kept.

## Model

| member | source | states |
|---|---|---|
| Classify.ClassifyDemand | Frontend/SmartStockX/src/pages/InventoryPage.jsx:159-163 | High iff demand > 250, Medium iff 100 < demand <= 250, Low iff demand <= 100: exactly one tier applies, so 250 is Medium and 100 is Low |
| Classify.GetExpiryStatus | Frontend/SmartStockX/src/pages/InventoryPage.jsx:174-178 | Critical iff days <= 7 (negative days included), Warning iff 7 < days <= 30, Good iff days > 30 |
| Classify.GetPriority | Frontend/SmartStockX/src/pages/TransferSuggestionsPage.jsx:26-30 | High iff days <= 7, Medium iff 7 < days <= 15, Low iff days > 15 |
| Classify.UrgentBandsAgree | Frontend/SmartStockX/src/pages/InventoryPage.jsx:174-175 | the Critical expiry badge and the High transfer priority cover exactly the same days, and an expired item is graded like one expiring today |
| Classify.DayClassifiersMonotone | Frontend/SmartStockX/src/pages/TransferSuggestionsPage.jsx:26-30 | more days never make either badge more urgent |
| InventoryPage.ToLower | Frontend/SmartStockX/src/pages/InventoryPage.jsx:314 | lower-casing keeps the length, maps each character on its own, and leaves no upper-case ASCII letter |
| InventoryPage.NatToStringRoundTrip | Frontend/SmartStockX/src/pages/InventoryPage.jsx:318 | the decimal string an id is searched by reads back as that id |
| InventoryPage.FilterInventory | Frontend/SmartStockX/src/pages/InventoryPage.jsx:313-324 | a row is kept iff the lower-cased term occurs in its lower-cased product name, its lower-cased store id or its id's digits, and the location is "All" or its store; with a specific location every kept row is from that store |
| InventoryPage.FilterInventoryKeepsOrder | Frontend/SmartStockX/src/pages/InventoryPage.jsx:313 | filtering distributes over concatenation, so the kept rows are an order-preserving subsequence |
| InventoryPage.FilterInventoryIdentity | Frontend/SmartStockX/src/pages/InventoryPage.jsx:314-323 | an empty search with "All" selected shows the inventory unchanged |
| InventoryPage.SearchIgnoresTermCase | Frontend/SmartStockX/src/pages/InventoryPage.jsx:314 | the search result does not depend on the case of the typed term |
| InventoryPage.Locations | Frontend/SmartStockX/src/pages/InventoryPage.jsx:326 | "All" first, then each store id of the inventory exactly once, in order of first appearance |
| InventoryPage.ComputeStats | Frontend/SmartStockX/src/pages/InventoryPage.jsx:328-333 | total items is the row count; expiring items counts the rows whose badge is Critical; high-demand items counts the rows whose tier is High; both counts are at most the total |
| InventoryPage.TotalStockAdditive | Frontend/SmartStockX/src/pages/InventoryPage.jsx:330 | the total stock is 0 for no rows and the row's own stock for one row, adds up across any split of the rows, and is non-negative when every row's stock is; together these make it the sum of the stock |
| InventoryPage.VisibleRows | Frontend/SmartStockX/src/pages/InventoryPage.jsx:213 | the rendered rows are a prefix of the filtered rows: all of them after "Show More", otherwise the first min(20, n) |
| InventoryPage.PaginationConsistent | Frontend/SmartStockX/src/pages/InventoryPage.jsx:410-415 | "Showing X of n" gives the number of rendered rows, and the "Show More" button appears iff some filtered rows are hidden |
| PredictionsPage.TotalRevenueExtend | Frontend/SmartStockX/src/pages/PredictionsPage.jsx:149-151 | the projected revenue is 0 for no rows, and each appended row adds its expected sales times its final price |
| PredictionsPage.PotentialLossBounds | Frontend/SmartStockX/src/pages/PredictionsPage.jsx:153-155 | no row within a week of expiry means zero potential loss; with non-negative stock and prices the loss lies between 0 and the value of all stock |
| PredictionsPage.PotentialLossExtend | Frontend/SmartStockX/src/pages/PredictionsPage.jsx:153-155 | the loss is 0 for no rows, and appending a row adds its stock value iff it expires within a week; together these make it the sum of stock times price over those rows |
| PredictionsPage.PotentialLossExample | Frontend/SmartStockX/src/pages/PredictionsPage.jsx:153-155 | of two rows, only the one with 3 days left counts, giving a loss of 50 |
| PredictionsPage.DemandPredictions | Frontend/SmartStockX/src/pages/PredictionsPage.jsx:158-163 | exactly min(10, n) entries, the i-th labelled "name (store)" of the i-th row, with its demand rounded half-up |
| PredictionsPage.DemandListIgnoresLaterRows | Frontend/SmartStockX/src/pages/PredictionsPage.jsx:158-159 | rows after the tenth never change the list, however large their demand |
| PredictionsPage.AssessRisks | Frontend/SmartStockX/src/pages/PredictionsPage.jsx:166-185 | three cards in fixed order: expiry (High iff more than 10 Critical rows, else Medium, never Low), overstock (High iff more than 5 rows with stock above twice the expected sales, else Low), transfers (Medium iff more than 5 transfers over 20 km, else Low) |
| PredictionsPage.StoreItems | Frontend/SmartStockX/src/pages/PredictionsPage.jsx:190 | exactly the rows of the given store |
| PredictionsPage.SellThroughSumAtLeast | Frontend/SmartStockX/src/pages/PredictionsPage.jsx:192 | a lower bound on every row's sales-to-stock ratio bounds the sum from below |
| PredictionsPage.SellThroughSumAtMost | Frontend/SmartStockX/src/pages/PredictionsPage.jsx:192 | an upper bound on every row's sales-to-stock ratio bounds the sum from above |
| PredictionsPage.Efficiency | Frontend/SmartStockX/src/pages/PredictionsPage.jsx:191-193 | with m the mean sell-through ratio times 100: while Math.round(m) is at most 100 the efficiency is Math.round(m), otherwise exactly 100; never above 100 |
| PredictionsPage.EfficiencyBounds | Frontend/SmartStockX/src/pages/PredictionsPage.jsx:191-200 | ratios within [0, 1] give an efficiency within [0, 100]; ratios all at least 1 give exactly 100 |
| PredictionsPage.EfficiencyExample | Frontend/SmartStockX/src/pages/PredictionsPage.jsx:191-193 | stock 10 with expected sales 5 gives efficiency 50 |
| PredictionsPage.WasteRisk | Frontend/SmartStockX/src/pages/PredictionsPage.jsx:194-195 | High iff more than 3 rows within a week of expiry, Medium iff 2 or 3, Low iff at most 1 |
| PredictionsPage.SummarizeStore | Frontend/SmartStockX/src/pages/PredictionsPage.jsx:189-203 | the store's summary carries its id, the efficiency and waste risk of exactly that store's rows, and a revenue within half a unit of their unrounded revenue; only that store's rows need non-zero stock |
| PredictionsPage.SummarizeStores | Frontend/SmartStockX/src/pages/PredictionsPage.jsx:188-204 | one summary per listed store id, in the same order, each the summary of that store's rows |
| PredictionsPage.StorePerformance | Frontend/SmartStockX/src/pages/PredictionsPage.jsx:188-204 | one summary per distinct store id of the inventory, no id twice, in order of first appearance, no more summaries than rows, and each summary is the one computed from its own store's rows |
| PredictionsPage.StoreIdsMatch | Frontend/SmartStockX/src/pages/PredictionsPage.jsx:188 | summaries labelled by the deduplicated id list cover every id once in first-seen order |
| PredictionsPage.StoreRevenueTotalStep | Frontend/SmartStockX/src/pages/PredictionsPage.jsx:196 | the first row's revenue belongs to exactly one store group |
| PredictionsPage.StoreRevenuePartition | Frontend/SmartStockX/src/pages/PredictionsPage.jsx:196 | when every row's store is listed once, the store revenues add up to the total revenue |
| PredictionsPage.StoreRevenueTotalEmpty | Frontend/SmartStockX/src/pages/PredictionsPage.jsx:196 | no rows, no store revenue |
| PredictionsPage.StorePerformanceRevenueTotal | Frontend/SmartStockX/src/pages/PredictionsPage.jsx:149-196 | the unrounded revenues of the stores in the performance chart add up to the projected total revenue |
| PredictionsPage.AvgDaysWithinRange | Frontend/SmartStockX/src/pages/PredictionsPage.jsx:214 | the rounded mean days to expiry lies within any range holding every row's days |
| PredictionsPage.AvgDaysToExpiry | Frontend/SmartStockX/src/pages/PredictionsPage.jsx:214 | the figure is the mean days to expiry rounded half-up: the exact mean lies in [r - 0.5, r + 0.5) |
| PredictionsPage.HighDemandThresholdsNested | Frontend/SmartStockX/src/pages/PredictionsPage.jsx:215 | the count above 200 is at least the inventory table's count above 250 and at most the row count |
| PredictionsPage.HighDemandCountExtend | Frontend/SmartStockX/src/pages/PredictionsPage.jsx:215 | the high-demand count is 0 for no rows, and each appended row adds 1 exactly when its demand is above 200 |
| PredictionsPage.GenerateAnalytics | Frontend/SmartStockX/src/pages/PredictionsPage.jsx:147-216 | revenue, loss, demand list, risk cards, store summaries, mean days to expiry and high-demand count are each the figure its own member states; the counters equal the list lengths; exactly min(10, n) demand points, 3 risks, between 1 and n store summaries, and zero loss when nothing expires within a week |
| TransferPage.Summarize | Frontend/SmartStockX/src/pages/TransferSuggestionsPage.jsx:158-183 | total is the transfer count; high priority counts the transfers with at most 7 days and is at most the total; the mean distance times the count is the sum of the distances; no transfers give 0 km and quantity 0 |
| TransferPage.AvgDistance | Frontend/SmartStockX/src/pages/TransferSuggestionsPage.jsx:172-175 | the mean distance times the number of transfers is the sum of their distances; 0 when there are none |
| TransferPage.AvgDistanceWithinRange | Frontend/SmartStockX/src/pages/TransferSuggestionsPage.jsx:172-175 | the mean distance lies within any range holding every distance, so between the shortest and the longest |
| TransferPage.AvgDistanceExample | Frontend/SmartStockX/src/pages/TransferSuggestionsPage.jsx:172-175 | 10 km and 30 km average 20 km |
| TransferPage.TotalQuantityAtLeastCount | Frontend/SmartStockX/src/pages/TransferSuggestionsPage.jsx:181 | when each transfer moves at least one unit, the total quantity is at least the number of transfers |
| TransferPage.TotalQuantityAdditive | Frontend/SmartStockX/src/pages/TransferSuggestionsPage.jsx:181 | the total quantity of one transfer is its own quantity, and totals add up across any split of the list; with the empty case this makes it the sum of the quantities |
| TransferPage.RatioBarWidth | Frontend/SmartStockX/src/pages/TransferSuggestionsPage.jsx:135 | the bar is 100 times the ratio up to a ratio of 1 and full beyond; it never exceeds 100 |
| RevenueChart.TotalRevenueExtend | Frontend/SmartStockX/src/components/StoreRevenueChart.jsx:20 | the total revenue is 0 for no stores, and each appended store adds its revenue |
| RevenueChart.AvgRevenue | Frontend/SmartStockX/src/components/StoreRevenueChart.jsx:20-21 | mean times the store count is the total revenue; 0 for no stores |
| RevenueChart.MaxRevenue | Frontend/SmartStockX/src/components/StoreRevenueChart.jsx:22 | at least every store's revenue and attained by some store; 0 for no stores |
| RevenueChart.TopStore | Frontend/SmartStockX/src/components/StoreRevenueChart.jsx:23 | present iff there are stores; then it is a store with the highest revenue, and every earlier store earns strictly less |
| RevenueChart.TopStoreText | Frontend/SmartStockX/src/components/StoreRevenueChart.jsx:156 | the card reads "N/A" exactly when there are no stores |
| RevenueChart.ChartLabels | Frontend/SmartStockX/src/components/StoreRevenueChart.jsx:26 | one label per store, in store order, each "Store " followed by the id |
| RevenueChart.ChartData | Frontend/SmartStockX/src/components/StoreRevenueChart.jsx:30 | one point per store, in store order, each the store's revenue |
| RevenueChart.TopStoreIsHighestPoint | Frontend/SmartStockX/src/components/StoreRevenueChart.jsx:22-30 | the top performer's label is on the chart and its point is the highest of the series |
| Numeric.JsRound | Frontend/SmartStockX/src/pages/PredictionsPage.jsx:162 | the nearest integer with halves going up: x lies in [r - 0.5, r + 0.5) |
| Numeric.Trunc | Backend/SmartStockX/inventory/ml/engine.py:109 | int() on a float truncates toward zero, within one unit of the argument on its side of zero |
| Numeric.RoundHalfEven | SmartStockX/inventory/models.py:66 | within half a unit of the argument, and an exact tie goes to the even neighbour |
| Numeric.Round2 | SmartStockX/inventory/models.py:66 | round(x, 2) is a whole number of cents within half a cent of x |
| Numeric.Round2OfCents | SmartStockX/inventory/models.py:66 | a whole number of cents is left unchanged by round(x, 2) |
| Numeric.Round2WithinCents | SmartStockX/inventory/models.py:66 | round(x, 2) stays within any interval whose ends are whole cents |
| Discount.UnsoldRatio | Backend/SmartStockX/inventory/ml/engine.py:63-64 | non-negative for non-negative stock; zero for zero stock; for positive stock zero iff stock <= demand |
| Discount.Urgency | Backend/SmartStockX/inventory/ml/engine.py:65-67 | non-negative for a positive threshold, and zero iff the remaining ratio is at least 1 and the days exceed the threshold |
| Discount.DynamicDiscount | Backend/SmartStockX/inventory/ml/engine.py:68-69 | never above the maximum discount |
| Discount.DiscountWithinBounds | Backend/SmartStockX/inventory/ml/engine.py:62-69 | with non-negative stock the discount lies in [base, max] |
| Discount.DiscountIsBaseIff | Backend/SmartStockX/inventory/ml/engine.py:62-69 | the discount equals the base iff stock is 0, or stock <= demand, or the urgency is zero (ratio >= 1 and days above the threshold) |
| Discount.DiscountedPriceBounds | Backend/SmartStockX/inventory/ml/engine.py:75 | a discount within [base, max] keeps the price within [MRP (1 - max), MRP (1 - base)] |
| Engine.CheckColumns | Backend/SmartStockX/inventory/ml/engine.py:21-28 | loading fails iff some required column is neither present nor supplied by "price", with exactly those columns as the error; on success the required columns are present, "price" stays only beside an "MRP" column, and no other column changes |
| Engine.RenamePrice | Backend/SmartStockX/inventory/ml/engine.py:21-22 | "price" becomes "MRP" only when "MRP" is absent; the other columns are untouched |
| Engine.PriceColumnAccepted | Backend/SmartStockX/inventory/ml/engine.py:21-28 | a file with "price" instead of "MRP" loads, and then has "MRP" and no "price" |
| Engine.ShelfDivisor | Backend/SmartStockX/inventory/ml/engine.py:37 | the ratio's divisor is at least 1 and is the shelf life when that is at least 1 |
| Engine.AddFeatures | Backend/SmartStockX/inventory/ml/engine.py:33-39 | days to expiry are the raw days clipped at 0; ratio times divisor is the days, the ratio is non-negative, and it is at most 1 when the raw days do not exceed the shelf life; expected sales are days times average sales; nothing else changes |
| Engine.AddFeaturesIdempotent | Backend/SmartStockX/inventory/ml/engine.py:33-39 | deriving the features twice from the same days changes nothing |
| Engine.AddFeaturesAll | Backend/SmartStockX/inventory/ml/engine.py:33-39 | every row gets its features from its own days, in order |
| Engine.ComputeDiscount | Backend/SmartStockX/inventory/ml/engine.py:62-69 | never above the maximum, and at least the base for non-negative stock |
| Engine.ComputeDiscountIsBase | Backend/SmartStockX/inventory/ml/engine.py:62-69 | the base discount exactly when stock is 0, stock <= predicted demand, or the ratio is at least 1 with more than two days left |
| Engine.PriceRow | Backend/SmartStockX/inventory/ml/engine.py:72-76 | the discount is the engine's default discount, within [0.10, 0.40] for non-negative stock; the final price is MRP (1 - discount), within [0.6 MRP, 0.9 MRP]; nothing else changes |
| Engine.ApplyPricing | Backend/SmartStockX/inventory/ml/engine.py:72-76 | every row is priced, in order |
| Engine.ApplyPricingBounds | Backend/SmartStockX/inventory/ml/engine.py:74-75 | over a whole table with non-negative stock and MRP, every discount is within [0.10, 0.40], every price within [0.6 MRP, 0.9 MRP], and the other columns are unchanged |
| Matcher.Batch | Backend/SmartStockX/inventory/ml/engine.py:84 | exactly the rows with the batch's product and expiry date |
| Matcher.Donors | Backend/SmartStockX/inventory/ml/engine.py:86-104 | exactly the batch rows with positive surplus and a low remaining ratio or few days left, each as often as in the batch, in non-increasing risk order |
| Matcher.Receivers | Backend/SmartStockX/inventory/ml/engine.py:90-105 | exactly the batch rows with negative surplus, each as often as in the batch, largest shortfall first |
| Matcher.LookupDistance | Backend/SmartStockX/inventory/ml/engine.py:113-125 | absent iff no table line joins the two stores; otherwise the distance of the first such line |
| Matcher.ScanReceivers | Backend/SmartStockX/inventory/ml/engine.py:108-133 | no more suggestions than receivers |
| Matcher.ScanReceiversInOrder | Backend/SmartStockX/inventory/ml/engine.py:108-128 | a donor's suggestions go to distinct receivers in scan order, each to a receiver later in the list than the one before, within that receiver's shortfall and over a route with a distance entry |
| Matcher.FitsInSurplusPrefix | Backend/SmartStockX/inventory/ml/engine.py:130 | each quantity is at most the surplus minus what the earlier suggestions sent |
| Matcher.ScanReceiversSound | Backend/SmartStockX/inventory/ml/engine.py:107-128 | every suggestion of a donor's scan moves between 1 and the donor's surplus units, carries the batch key and the donor's store, ratio and days, and goes to one of the receivers, within its shortfall, over a route with a distance entry |
| Matcher.ScanReceiversRespectsSurplus | Backend/SmartStockX/inventory/ml/engine.py:109-130 | each quantity fits in what is left of the donor's surplus after the suggestions before it |
| Matcher.ScanReceiversStopsWhenSpent | Backend/SmartStockX/inventory/ml/engine.py:130-133 | the scan goes past a suggestion only while some surplus is left |
| Matcher.ScanReceiversTotalWithinSurplus | Backend/SmartStockX/inventory/ml/engine.py:108-133 | a donor never sends more than its initial surplus in total |
| Matcher.ScanReceiversLoop | Backend/SmartStockX/inventory/ml/engine.py:108-133 | the receiver loop with its shrinking surplus and early exit computes exactly the scan |
| Matcher.DonorsPass | Backend/SmartStockX/inventory/ml/engine.py:107-133 | every suggestion moves at least one unit and no more than the surplus of a donor it comes from, to one of the receivers |
| Matcher.ShortfallReadAfreshPerDonor | Backend/SmartStockX/inventory/ml/engine.py:131 | two donors with 5 spare units each both send 5 to one receiver short by 5, 10 units in all |
| Matcher.ScanSplitsSurplusExample | Backend/SmartStockX/inventory/ml/engine.py:109-133 | a surplus of 7 facing two shortfalls of 5 sends 5 to the first and 2 to the second, at the second route's distance |
| Matcher.SuggestForBatch | Backend/SmartStockX/inventory/ml/engine.py:83-133 | a batch without donors or without receivers yields nothing; every suggestion carries the batch key and is justified by a donor row and a receiver row of that batch |
| Matcher.BatchKeys | Backend/SmartStockX/inventory/ml/engine.py:83 | each (product, expiry date) pair of the rows exactly once, in order of first appearance |
| Matcher.SuggestOverKeys | Backend/SmartStockX/inventory/ml/engine.py:83-133 | every suggestion belongs to one of the visited batches and is justified |
| Matcher.SuggestTransfers | Backend/SmartStockX/inventory/ml/engine.py:79-135 | every suggestion comes from an existing batch, from a donor row of it (at most that donor's surplus, at least one unit) to a receiver row of it (at most its shortfall) over a route with a distance entry |
| Pipeline.Predict | Backend/SmartStockX/inventory/ml/engine.py:144 | every row gets its own predicted demand, nothing else changes |
| Pipeline.RunEngine | Backend/SmartStockX/inventory/ml/engine.py:140-151 | a missing column stops the run with those columns; otherwise the priced rows are the input rows featured, given their demand and priced, one per input row, with non-negative days and a price within 60-90% of MRP; and the transfers are exactly the matcher's suggestions over the priced rows at the default thresholds, each justified |
| LegacyInventory.RemainingRatio | SmartStockX/inventory/models.py:44-46 | ratio times max(shelf life, 1) is the days to expiry; the ratio is non-negative for non-negative days and at most 1 within the shelf life |
| LegacyInventory.ExpectedSales | SmartStockX/inventory/models.py:48-50 | no days left means no expected sales; with days ahead, expected sales are positive iff average daily sales are, and never negative for non-negative sales |
| LegacyInventory.ExpectedSalesPerDay | SmartStockX/inventory/models.py:48-50 | expected sales are 0 at no days left and grow by the average daily sales per day in both directions, which pins them to sales times days for every signed day count; past expiry they are negative for positive sales |
| LegacyInventory.Surplus | SmartStockX/inventory/models.py:52-54 | exactly stock minus expected sales when stock exceeds them, and zero iff stock <= expected sales: max(stock - expected sales, 0) |
| LegacyInventory.RawDiscount | SmartStockX/inventory/models.py:56-65 | never above the maximum, and at least the base for a positive threshold |
| LegacyInventory.ComputeDiscount | SmartStockX/inventory/models.py:56-66 | the rounded discount is within half a cent of the unrounded one |
| LegacyInventory.DefaultDiscountRange | SmartStockX/inventory/models.py:56-66 | with the defaults the rounded discount stays within [0.10, 0.40] |
| LegacyInventory.DiscountIsBase | SmartStockX/inventory/models.py:56-66 | the unrounded discount is the base iff stock is 0, the surplus is 0, or the urgency is zero; with the defaults the rounded discount is then exactly 0.10 |
| LegacyInventory.FinalPrice | SmartStockX/inventory/models.py:68-70 | the final price is within half a cent of price times (1 - the rounded default discount); for a non-negative price it lies in [0.6 price - 0.005, 0.9 price + 0.005] |
| LegacyInventory.AgreesWithEngine | SmartStockX/inventory/models.py:44-65 | for non-negative days the engine derives the same ratio and expected sales, and with expected sales as its demand the same unrounded discount |

## Left out

- Presentation is not modelled: JSX rendering, colour classes, currency and date formatting, `toFixed` and `toLocaleString`. The risk cards' title, description and impact strings are fixed text and are also left out.
- Fetching, loading and error state, the mock data, the upload page, routing, the keep-alive ping and the Django views, URLs and serializers are all I/O or framework plumbing and are not modelled.
- Reading the CSV files is I/O. The model starts from the header's column set, the rows and the distance table.
  - Unparseable expiry dates, which become NaT, are not modelled. Neither are the errors `read_csv` raises when `expiry_date` is absent.
- Days to expiry come from the clock (`datetime.now()`). The engine takes the raw day difference of each row as an input.
- Predicted demand comes from a trained random forest. `Pipeline.RunEngine` takes one demand figure per row as an input. The training step first splits the table 80/20 (engine.py:49), which raises `ValueError` for a table with fewer than two rows. The model has no training step, so it returns `Success` for an empty or one-row table where the code fails.
- The mean-squared-error `print` is not modelled.
- The run id column and the `surplus` column that the entry point adds to the table are not modelled. The matcher recomputes the surplus itself.
- Floating-point behaviour is not modelled. All arithmetic is exact over reals: there is no IEEE-754 rounding error, NaN or infinity. So a zero stock in the efficiency figure, or an empty inventory in the mean days, is a precondition rather than a NaN result.
- `toLowerCase` is modelled for ASCII letters only. Unicode case mapping is not modelled.
- pandas' `sort_values` uses an unstable sort. The model uses a stable insertion sort, so the order of donors with equal risk, or of receivers with equal surplus, may differ from the code.
- The legacy discount with an absolute-days threshold of 0 raises `ZeroDivisionError`. The model requires a non-zero threshold.
- Matcher.ScanReceivers: its own contract states only the length bound. The receiver order, soundness, the surplus bounds and the stopping rule are stated by the lemmas that follow it in the table.
- Matcher.SuggestTransfers: gives no bound on the total a receiver gets across donors, because the code rereads each receiver's original shortfall for every donor.
- PredictionsPage.Efficiency: requires every row of the store to have non-zero stock. In JavaScript a zero stock with positive expected sales makes the mean Infinity, and `Math.min(Infinity, 100)` shows 100. With negative expected sales it gives -Infinity, and 0/0 gives NaN. The model has no infinities or NaN, so these rows are outside its precondition.
- Stock is a whole number (`int`) in the dashboard records and the engine rows. The backend model declares it as a float column, and the engine reads the CSV column without conversion, so a fractional stock is possible there but is not modelled. The legacy model's stock is a positive integer field and is modelled as `nat`.
