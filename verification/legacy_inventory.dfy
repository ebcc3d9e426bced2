/** The older per-record inventory model, whose derived properties restate the
    engine's arithmetic with expected sales in place of predicted demand, and
    whose discount and final price are rounded to two decimals. */
module LegacyInventory {

  import opened Numeric
  import opened Discount
  import Engine

  const DefaultAbsDaysThreshold: int := 2

  /** One stock record of a product in a store. */
  datatype Inventory = Inventory(
    stock: nat,
    price: real,            // MRP, a two-decimal amount
    daysToExpiry: int,
    shelfLifeDays: nat,
    unitsSold: nat,
    avgDailySales: real)

  /** Share of the shelf life still ahead; the divisor is never below 1. */
  function RemainingRatio(inv: Inventory): (r: real)
    ensures r * MaxInt(inv.shelfLifeDays, 1) as real == inv.daysToExpiry as real
    ensures inv.daysToExpiry >= 0 ==> r >= 0.0
    ensures 0 <= inv.daysToExpiry <= inv.shelfLifeDays ==> r <= 1.0
  {
    var divisor := MaxInt(inv.shelfLifeDays, 1);
    var days := inv.daysToExpiry;
    RatioWithinShelfLife(days, divisor);
    days as real / divisor as real
  }

  /** A non-negative day count over a divisor of at least 1 gives a
      non-negative ratio, which is at most 1 while the days fit in the divisor. */
  lemma RatioWithinShelfLife(days: int, divisor: int)
    requires divisor >= 1
    ensures 0 <= days ==> 0.0 <= days as real / divisor as real
    ensures 0 <= days <= divisor ==> days as real / divisor as real <= 1.0
  {
    if 0 <= days {
      DivBetween(days as real, divisor as real, 0.0, if days <= divisor then 1.0 else days as real);
    }
  }

  /** Units the average daily sales will move before expiry: none with no
      days left, and never negative for non-negative days and sales. */
  function ExpectedSales(inv: Inventory): (e: real)
    ensures inv.daysToExpiry == 0 ==> e == 0.0
    ensures inv.daysToExpiry >= 0 && inv.avgDailySales >= 0.0 ==> e >= 0.0
    ensures inv.daysToExpiry > 0 ==> (e > 0.0 <==> inv.avgDailySales > 0.0)
  {
    NonNegMul(inv.avgDailySales, inv.daysToExpiry as real);
    inv.avgDailySales * inv.daysToExpiry as real
  }

  /** Expected sales grow by the average daily sales per day to expiry, from
      zero at no days left, in both directions: past expiry they are negative. */
  lemma ExpectedSalesPerDay(inv: Inventory, d: int)
    ensures ExpectedSales(inv.(daysToExpiry := 0)) == 0.0
    ensures ExpectedSales(inv.(daysToExpiry := d + 1))
            == ExpectedSales(inv.(daysToExpiry := d)) + inv.avgDailySales
    ensures d < 0 && inv.avgDailySales > 0.0 ==> ExpectedSales(inv.(daysToExpiry := d)) < 0.0
  {
  }

  /** Stock the expected sales will not absorb, never negative. */
  function Surplus(inv: Inventory): (s: real)
    ensures s >= 0.0
    ensures s >= inv.stock as real - ExpectedSales(inv)
    ensures s == 0.0 <==> inv.stock as real <= ExpectedSales(inv)
    ensures inv.stock as real > ExpectedSales(inv) ==> s == inv.stock as real - ExpectedSales(inv)
  {
    Max(inv.stock as real - ExpectedSales(inv), 0.0)
  }

  /** The discount before it is rounded. */
  function RawDiscount(inv: Inventory, base: real, maxDisc: real, absDays: int): (d: real)
    requires absDays != 0
    ensures d <= maxDisc
    ensures absDays > 0 && base <= maxDisc ==> base <= d
  {
    DiscountWithinBounds(inv.stock, ExpectedSales(inv), RemainingRatio(inv), inv.daysToExpiry,
                         base, maxDisc, absDays);
    DynamicDiscount(inv.stock, ExpectedSales(inv), RemainingRatio(inv), inv.daysToExpiry,
                    base, maxDisc, absDays)
  }

  /** The discount rounded to two decimals. */
  function ComputeDiscount(inv: Inventory, base: real, maxDisc: real, absDays: int): (d: real)
    requires absDays != 0
    ensures RawDiscount(inv, base, maxDisc, absDays) - 0.005 <= d <= RawDiscount(inv, base, maxDisc, absDays) + 0.005
  {
    Round2(RawDiscount(inv, base, maxDisc, absDays))
  }

  /** With the default settings the rounded discount stays within [0.10, 0.40]. */
  lemma DefaultDiscountRange(inv: Inventory)
    ensures 0.10 <= ComputeDiscount(inv, DefaultBase, DefaultMaxDiscount, DefaultAbsDaysThreshold) <= 0.40
  {
    var raw := RawDiscount(inv, DefaultBase, DefaultMaxDiscount, DefaultAbsDaysThreshold);
    Round2WithinCents(raw, 10, 40);
  }

  /** The raw discount is the base exactly when nothing is left unsold, or when
      the record is neither past its shelf life nor close to expiry. With the
      defaults, the rounded discount is then exactly 0.10. */
  lemma DiscountIsBase(inv: Inventory, base: real, maxDisc: real, absDays: int)
    requires absDays > 0 && base < maxDisc
    ensures RawDiscount(inv, base, maxDisc, absDays) == base
            <==> inv.stock == 0 || Surplus(inv) == 0.0
                 || (RemainingRatio(inv) >= 1.0 && inv.daysToExpiry > absDays)
    ensures inv.stock == 0 || Surplus(inv) == 0.0 ==>
              ComputeDiscount(inv, DefaultBase, DefaultMaxDiscount, DefaultAbsDaysThreshold) == 0.10
  {
    DiscountIsBaseIff(inv.stock, ExpectedSales(inv), RemainingRatio(inv), inv.daysToExpiry,
                      base, maxDisc, absDays);
    DiscountIsBaseIff(inv.stock, ExpectedSales(inv), RemainingRatio(inv), inv.daysToExpiry,
                      DefaultBase, DefaultMaxDiscount, DefaultAbsDaysThreshold);
    Round2OfCents(10);
  }

  /** The price after the default discount, rounded to two decimals. */
  function FinalPrice(inv: Inventory): (p: real)
    ensures var d := ComputeDiscount(inv, DefaultBase, DefaultMaxDiscount, DefaultAbsDaysThreshold);
            inv.price * (1.0 - d) - 0.005 <= p <= inv.price * (1.0 - d) + 0.005
    ensures inv.price >= 0.0 ==> 0.6 * inv.price - 0.005 <= p <= 0.9 * inv.price + 0.005
  {
    var d := ComputeDiscount(inv, DefaultBase, DefaultMaxDiscount, DefaultAbsDaysThreshold);
    DefaultDiscountRange(inv);
    DiscountedPriceBounds(inv.price, d, DefaultBase, DefaultMaxDiscount);
    Round2(DiscountedPrice(inv.price, d))
  }

  /** The engine row carrying the same record, with its features derived from
      the same days to expiry. */
  function AsEngineRow(inv: Inventory, storeId: string, productId: string, expiryDate: int): Engine.Row
  {
    Engine.AddFeatures(
      Engine.Row(storeId, productId, expiryDate, inv.stock, inv.shelfLifeDays, inv.avgDailySales,
                 inv.price, 0.0, 0, 0.0, 0.0, 0.0, 0.0),
      inv.daysToExpiry)
  }

  /** For a record with days ahead, the engine derives the same remaining ratio
      and expected sales, and -- when its predicted demand is the expected
      sales -- the same unrounded discount. */
  lemma AgreesWithEngine(inv: Inventory, storeId: string, productId: string, expiryDate: int,
                         base: real, maxDisc: real)
    requires inv.daysToExpiry >= 0
    ensures var row := AsEngineRow(inv, storeId, productId, expiryDate);
            row.remainingRatio == RemainingRatio(inv)
            && row.expectedSales == ExpectedSales(inv)
            && Engine.ComputeDiscount(row.(predictedDemand := row.expectedSales), base, maxDisc)
               == RawDiscount(inv, base, maxDisc, Engine.DefaultAbsDays)
  {
  }
}
