/** The transfer suggestions page: the per-row priority badge, the
    remaining-ratio bar and the four summary cards under the table. */
module TransferPage {

  import opened Records
  import opened Classify
  import opened Seqs
  import opened Numeric

  /** The summary cards: total transfers, high-priority transfers, mean
      distance in km and total quantity. */
  datatype TransferSummary = TransferSummary(
    totalTransfers: nat, highPriority: nat, avgDistance: real, totalQuantity: int)

  predicate IsHighPriority(t: Transfer)
  {
    GetPriority(t.daysToExpiry) == High
  }

  function DistanceOf(t: Transfer): real
  {
    t.distanceKm
  }

  function QuantityOf(t: Transfer): int
  {
    t.quantity
  }

  /** Mean distance of the listed transfers, 0 when there are none. */
  function AvgDistance(ts: seq<Transfer>): (a: real)
    ensures |ts| > 0 ==> a * |ts| as real == Sum(ts, DistanceOf)
    ensures |ts| == 0 ==> a == 0.0
  {
    if |ts| > 0 then Sum(ts, DistanceOf) / |ts| as real else 0.0
  }

  /** The four summary cards. */
  function Summarize(ts: seq<Transfer>): (s: TransferSummary)
    ensures s.totalTransfers == |ts|
    ensures s.highPriority == |Filter(ts, (t: Transfer) => t.daysToExpiry <= 7)| <= s.totalTransfers
    ensures |ts| == 0 ==> s.avgDistance == 0.0 && s.totalQuantity == 0
    ensures |ts| > 0 ==> s.avgDistance * |ts| as real == Sum(ts, DistanceOf)
  {
    FilterExt(ts, IsHighPriority, (t: Transfer) => t.daysToExpiry <= 7);
    TransferSummary(|ts|, |Filter(ts, IsHighPriority)|, AvgDistance(ts), SumInt(ts, QuantityOf))
  }

  /** The mean distance lies within any range holding every transfer's
      distance; in particular between the shortest and the longest. */
  lemma AvgDistanceWithinRange(ts: seq<Transfer>, lo: real, hi: real)
    requires |ts| > 0
    requires forall t :: t in ts ==> lo <= t.distanceKm <= hi
    ensures lo <= Summarize(ts).avgDistance <= hi
  {
    SumBounds(ts, DistanceOf, lo, hi);
    DivBetween(Sum(ts, DistanceOf), |ts| as real, lo, hi);
  }

  /** The quantity card shows a transfer's own quantity for one transfer and
      adds up across any split of the list. */
  lemma TotalQuantityAdditive(a: seq<Transfer>, b: seq<Transfer>)
    ensures |a| == 1 ==> Summarize(a).totalQuantity == a[0].quantity
    ensures Summarize(a + b).totalQuantity == Summarize(a).totalQuantity + Summarize(b).totalQuantity
  {
    SumIntConcat(a, b, QuantityOf);
    if |a| == 1 {
      assert a[1..] == [];
    }
  }

  /** Every suggested transfer moves at least one unit, so the total quantity
      is at least the number of transfers. */
  lemma TotalQuantityAtLeastCount(ts: seq<Transfer>)
    requires forall t :: t in ts ==> t.quantity >= 1
    ensures Summarize(ts).totalQuantity >= Summarize(ts).totalTransfers
  {
    SumIntAtLeast(ts, QuantityOf, 1);
  }

  /** The width, in percent, of the remaining-ratio bar. */
  function RatioBarWidth(ratio: real): (w: real)
    ensures w <= 100.0
    ensures ratio <= 1.0 ==> w == ratio * 100.0
    ensures ratio >= 1.0 ==> w == 100.0
  {
    Min(ratio * 100.0, 100.0)
  }

  /** Two transfers 10 km and 30 km long average 20 km. */
  lemma AvgDistanceExample()
    ensures Summarize([ExampleTransfer(10.0), ExampleTransfer(30.0)]).avgDistance == 20.0
    ensures Summarize([ExampleTransfer(10.0), ExampleTransfer(30.0)]).totalTransfers == 2
  {
    assert Sum([ExampleTransfer(10.0), ExampleTransfer(30.0)], DistanceOf) == 40.0;
  }

  function ExampleTransfer(km: real): Transfer
  {
    Transfer(1, "P1", "S1", "S2", 5, km, "2025-07-20", 3, 0.2)
  }
}
