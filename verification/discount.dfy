/** The bounded dynamic-discount formula shared by the pricing engine and the
    legacy inventory model: a base discount plus half of (unsold share of stock
    times urgency), capped at a maximum. */
module Discount {

  import opened Numeric

  const DefaultBase: real := 0.10
  const DefaultMaxDiscount: real := 0.40

  /** Share of the stock that the demand figure will not absorb (0 for no stock). */
  function UnsoldRatio(stock: int, demand: real): (u: real)
    ensures stock >= 0 ==> u >= 0.0
    ensures stock > 0 ==> (u == 0.0 <==> stock as real <= demand)
    ensures stock == 0 ==> u == 0.0
  {
    var unsold := Max(stock as real - demand, 0.0);
    if stock != 0 then unsold / stock as real else 0.0
  }

  /** The larger of the relative urgency (shelf life used up) and the absolute
      urgency (days left against a threshold). */
  function Urgency(ratio: real, days: int, absDays: int): (g: real)
    requires absDays != 0
    ensures absDays > 0 ==> g >= 0.0
    ensures absDays > 0 ==> (g == 0.0 <==> ratio >= 1.0 && days > absDays)
  {
    var rel := 1.0 - ratio;
    var abs := MaxInt(absDays - days + 1, 0) as real / absDays as real;
    Max(rel, abs)
  }

  function DynamicDiscount(stock: int, demand: real, ratio: real, days: int,
                           base: real, maxDisc: real, absDays: int): (d: real)
    requires absDays != 0
    ensures d <= maxDisc
  {
    var dynamic := 0.5 * UnsoldRatio(stock, demand) * Urgency(ratio, days, absDays);
    Min(maxDisc, base + dynamic)
  }

  /** With non-negative stock the discount never drops below the base. */
  lemma DiscountWithinBounds(stock: int, demand: real, ratio: real, days: int,
                             base: real, maxDisc: real, absDays: int)
    requires absDays != 0
    ensures stock >= 0 && absDays > 0 && base <= maxDisc ==>
              base <= DynamicDiscount(stock, demand, ratio, days, base, maxDisc, absDays) <= maxDisc
  {
    if stock >= 0 && absDays > 0 {
      var u := UnsoldRatio(stock, demand);
      var g := Urgency(ratio, days, absDays);
      assert 0.0 <= u * g;
    }
  }

  /** The discount is exactly the base when nothing is left unsold, when there
      is no stock, or when the item is neither past its shelf life nor close to
      expiry -- and in no other case. */
  lemma DiscountIsBaseIff(stock: int, demand: real, ratio: real, days: int,
                          base: real, maxDisc: real, absDays: int)
    requires stock >= 0 && absDays > 0 && base < maxDisc
    ensures DynamicDiscount(stock, demand, ratio, days, base, maxDisc, absDays) == base
            <==> stock == 0 || stock as real <= demand || (ratio >= 1.0 && days > absDays)
  {
    var u := UnsoldRatio(stock, demand);
    var g := Urgency(ratio, days, absDays);
    if u > 0.0 && g > 0.0 {
      assert 0.0 < u * g;
    } else {
      assert u * g == 0.0;
    }
  }

  /** Price after discount. */
  function DiscountedPrice(mrp: real, discount: real): real
  {
    mrp * (1.0 - discount)
  }

  /** A discount within [base, maxDisc] keeps the price within
      [mrp * (1 - maxDisc), mrp * (1 - base)]. */
  lemma DiscountedPriceBounds(mrp: real, discount: real, base: real, maxDisc: real)
    ensures mrp >= 0.0 && base <= discount <= maxDisc ==>
              mrp * (1.0 - maxDisc) <= DiscountedPrice(mrp, discount) <= mrp * (1.0 - base)
  {
    if mrp >= 0.0 && base <= discount <= maxDisc {
      assert mrp * (1.0 - base) - DiscountedPrice(mrp, discount) == mrp * (discount - base);
      assert DiscountedPrice(mrp, discount) - mrp * (1.0 - maxDisc) == mrp * (maxDisc - discount);
      NonNegMul(mrp, discount - base);
      NonNegMul(mrp, maxDisc - discount);
    }
  }
}
