/** The pricing engine's per-row pipeline: the column check made when the
    inventory file is loaded, feature derivation, and the dynamic discount with
    its final price. Days to expiry arrive as an input (they come from the
    clock), and predicted demand is a given number (it comes from a trained
    model). */
module Engine {

  import opened Results
  import opened Numeric
  import opened Discount

  const DefaultRelRatio: real := 0.10
  const DefaultAbsDays: int := 2

  /** The columns the inventory file must provide once `price` has been renamed. */
  const RequiredColumns: set<string> :=
    {"store_id", "product_id", "stock", "expiry_date", "shelf_life_days", "avg_daily_sales", "MRP"}

  /** One inventory row as the engine sees it; the last five fields are derived. */
  datatype Row = Row(
    storeId: string,
    productId: string,
    expiryDate: int,        // the expiry date as a day number; only compared for equality
    stock: int,
    shelfLifeDays: int,
    avgDailySales: real,
    mrp: real,
    predictedDemand: real,
    daysToExpiry: int,
    remainingRatio: real,
    expectedSales: real,
    discount: real,
    finalPrice: real)

  /** Whether a file with the given header supplies column `c`, counting a
      `price` column as the `MRP` column. */
  predicate Provides(cols: set<string>, c: string)
  {
    c in cols || (c == "MRP" && "price" in cols)
  }

  /** The header after loading: `price` becomes `MRP` when there is no `MRP`
      column, and loading fails with the set of required columns still missing. */
  function CheckColumns(cols: set<string>): (r: Result<set<string>, set<string>>)
    ensures r.Failure? <==> exists c :: c in RequiredColumns && !Provides(cols, c)
    ensures r.Failure? ==> forall c :: c in r.error <==> c in RequiredColumns && !Provides(cols, c)
    ensures r.Success? ==> RequiredColumns <= r.value
    ensures r.Success? ==> ("price" in r.value <==> "price" in cols && "MRP" in cols)
    ensures r.Success? ==> forall c :: c != "price" && c != "MRP" ==> (c in r.value <==> c in cols)
  {
    var renamed := RenamePrice(cols);
    assert "price" !in RequiredColumns;
    var missing := RequiredColumns - renamed;
    assert forall c :: c in missing <==> c in RequiredColumns && !Provides(cols, c);
    if missing != {} then Failure(missing) else Success(renamed)
  }

  /** `price` renamed to `MRP` unless there already is an `MRP` column. */
  function RenamePrice(cols: set<string>): (r: set<string>)
    ensures forall c :: c != "price" ==> (c in r <==> Provides(cols, c))
    ensures "price" in r <==> "price" in cols && "MRP" in cols
  {
    if "price" in cols && "MRP" !in cols then cols - {"price"} + {"MRP"} else cols
  }

  /** A file that names its price column `price` instead of `MRP` loads. */
  lemma PriceColumnAccepted(cols: set<string>)
    requires "MRP" !in cols && "price" in cols
    requires RequiredColumns - {"MRP"} <= cols
    ensures CheckColumns(cols).Success?
    ensures "MRP" in CheckColumns(cols).value && "price" !in CheckColumns(cols).value
  {
  }

  /** The denominator of the remaining ratio: shelf life clipped below at 1. */
  function ShelfDivisor(shelfLifeDays: int): (d: int)
    ensures d >= 1
    ensures shelfLifeDays >= 1 ==> d == shelfLifeDays
  {
    MaxInt(shelfLifeDays, 1)
  }

  /** Derives days to expiry (clipped at 0), the remaining share of shelf life
      and the sales expected before expiry; nothing else changes. */
  function AddFeatures(row: Row, rawDays: int): (r: Row)
    ensures r.daysToExpiry >= 0
    ensures rawDays >= 0 ==> r.daysToExpiry == rawDays
    ensures rawDays < 0 ==> r.daysToExpiry == 0
    ensures r.remainingRatio >= 0.0
    ensures r.remainingRatio * ShelfDivisor(row.shelfLifeDays) as real == r.daysToExpiry as real
    ensures rawDays <= row.shelfLifeDays ==> r.remainingRatio <= 1.0
    ensures r.expectedSales == r.daysToExpiry as real * row.avgDailySales
    ensures r.(daysToExpiry := row.daysToExpiry, remainingRatio := row.remainingRatio,
               expectedSales := row.expectedSales) == row
  {
    var days := MaxInt(rawDays, 0);
    var divisor := ShelfDivisor(row.shelfLifeDays);
    var ratio := days as real / divisor as real;
    DivBetween(days as real, divisor as real, 0.0, if days <= divisor then 1.0 else days as real);
    row.(daysToExpiry := days, remainingRatio := ratio, expectedSales := days as real * row.avgDailySales)
  }

  /** Deriving the features twice from the same days gives the same row. */
  lemma AddFeaturesIdempotent(row: Row, rawDays: int)
    ensures AddFeatures(AddFeatures(row, rawDays), rawDays) == AddFeatures(row, rawDays)
  {
  }

  /** The feature frame: every row with its own days to expiry. */
  function AddFeaturesAll(rows: seq<Row>, rawDays: seq<int>): (r: seq<Row>)
    requires |rawDays| == |rows|
    ensures |r| == |rows|
    ensures forall i :: 0 <= i < |rows| ==> r[i] == AddFeatures(rows[i], rawDays[i])
  {
    if |rows| == 0 then [] else [AddFeatures(rows[0], rawDays[0])] + AddFeaturesAll(rows[1..], rawDays[1..])
  }

  /** The engine's discount for one row, with the absolute-urgency threshold
      fixed at two days. */
  function ComputeDiscount(row: Row, base: real, maxDisc: real): (d: real)
    ensures d <= maxDisc
    ensures row.stock >= 0 && base <= maxDisc ==> base <= d
  {
    DiscountWithinBounds(row.stock, row.predictedDemand, row.remainingRatio, row.daysToExpiry,
                         base, maxDisc, DefaultAbsDays);
    DynamicDiscount(row.stock, row.predictedDemand, row.remainingRatio, row.daysToExpiry,
                    base, maxDisc, DefaultAbsDays)
  }

  /** The engine gives only the base discount exactly when no stock would be
      left unsold, or when the row is neither past its shelf life nor within
      three days of expiry. */
  lemma ComputeDiscountIsBase(row: Row, base: real, maxDisc: real)
    requires row.stock >= 0 && base < maxDisc
    ensures ComputeDiscount(row, base, maxDisc) == base
            <==> row.stock == 0 || row.stock as real <= row.predictedDemand
                 || (row.remainingRatio >= 1.0 && row.daysToExpiry > DefaultAbsDays)
  {
    DiscountIsBaseIff(row.stock, row.predictedDemand, row.remainingRatio, row.daysToExpiry,
                      base, maxDisc, DefaultAbsDays);
  }

  /** A row priced with the default discount bounds. */
  function PriceRow(row: Row): (r: Row)
    ensures r.discount == ComputeDiscount(row, DefaultBase, DefaultMaxDiscount)
    ensures r.finalPrice == r.mrp * (1.0 - r.discount)
    ensures row.stock >= 0 ==> 0.10 <= r.discount <= 0.40
    ensures row.stock >= 0 && row.mrp >= 0.0 ==> 0.6 * row.mrp <= r.finalPrice <= 0.9 * row.mrp
    ensures r.(discount := row.discount, finalPrice := row.finalPrice) == row
  {
    var d := ComputeDiscount(row, DefaultBase, DefaultMaxDiscount);
    DiscountedPriceBounds(row.mrp, d, DefaultBase, DefaultMaxDiscount);
    row.(discount := d, finalPrice := DiscountedPrice(row.mrp, d))
  }

  /** Prices every row, in order. */
  function ApplyPricing(rows: seq<Row>): (r: seq<Row>)
    ensures |r| == |rows|
    ensures forall i :: 0 <= i < |rows| ==> r[i] == PriceRow(rows[i])
  {
    if |rows| == 0 then [] else [PriceRow(rows[0])] + ApplyPricing(rows[1..])
  }

  /** With non-negative stock and prices, every priced row sells at between
      60% and 90% of its MRP, and the other columns are left as they were. */
  lemma ApplyPricingBounds(rows: seq<Row>)
    requires forall x :: x in rows ==> x.stock >= 0 && x.mrp >= 0.0
    ensures forall i :: 0 <= i < |rows| ==>
              0.10 <= ApplyPricing(rows)[i].discount <= 0.40
              && 0.6 * rows[i].mrp <= ApplyPricing(rows)[i].finalPrice <= 0.9 * rows[i].mrp
              && ApplyPricing(rows)[i].(discount := rows[i].discount, finalPrice := rows[i].finalPrice) == rows[i]
  {
  }
}
