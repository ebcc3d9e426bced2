/** The inventory page: free-text search and store filter, the store drop-down,
    the four counters above the table and the 20-row "Show More" window. */
module InventoryPage {

  import opened Records
  import opened Classify
  import opened Seqs

  /** The drop-down entry that disables the store filter. */
  const AllLocations: string := "All"
  /** Rows shown before "Show More" is pressed. */
  const PageSize: nat := 20

  // ---------------------------------------------------------------- text

  /** String.prototype.toLowerCase on one character (ASCII letters only). */
  function LowerChar(c: char): char
  {
    if 'A' <= c <= 'Z' then (c as int - 'A' as int + 'a' as int) as char else c
  }

  function ToLower(s: string): (r: string)
    ensures |r| == |s|
    ensures forall i :: 0 <= i < |s| ==> r[i] == LowerChar(s[i])
    ensures forall i :: 0 <= i < |r| ==> !('A' <= r[i] <= 'Z')
  {
    seq(|s|, i requires 0 <= i < |s| => LowerChar(s[i]))
  }

  /** Lower-casing twice is lower-casing once. */
  lemma ToLowerIdempotent(s: string)
    ensures ToLower(ToLower(s)) == ToLower(s)
  {
  }

  /** String.prototype.includes: `needle` occurs as a contiguous piece of `hay`. */
  predicate Contains(hay: string, needle: string)
  {
    exists i :: 0 <= i <= |hay| - |needle| && OccursAt(hay, needle, i)
  }

  predicate OccursAt(hay: string, needle: string, i: int)
  {
    0 <= i <= |hay| - |needle| && hay[i..i + |needle|] == needle
  }

  lemma ContainsEmpty(hay: string)
    ensures Contains(hay, "")
  {
    assert OccursAt(hay, "", 0);
  }

  function DigitChar(d: int): (c: char)
    requires 0 <= d < 10
    ensures '0' <= c <= '9'
  {
    ('0' as int + d) as char
  }

  /** Number.prototype.toString for a non-negative integer id: its decimal digits. */
  function NatToString(n: nat): (r: string)
    ensures |r| >= 1
    ensures forall i :: 0 <= i < |r| ==> '0' <= r[i] <= '9'
    ensures r[0] == '0' ==> n == 0
    decreases n
  {
    if n < 10 then [DigitChar(n)] else NatToString(n / 10) + [DigitChar(n % 10)]
  }

  /** The value of a string of decimal digits. */
  function DecimalValue(s: string): int
    requires forall i :: 0 <= i < |s| ==> '0' <= s[i] <= '9'
  {
    if |s| == 0 then 0
    else DecimalValue(s[..|s| - 1]) * 10 + (s[|s| - 1] as int - '0' as int)
  }

  /** Reading the id's decimal string back gives the id. */
  lemma {:induction false} NatToStringRoundTrip(n: nat)
    ensures DecimalValue(NatToString(n)) == n
    decreases n
  {
    var r := NatToString(n);
    if n >= 10 {
      NatToStringRoundTrip(n / 10);
      assert r[..|r| - 1] == NatToString(n / 10);
    }
  }

  // ---------------------------------------------------------------- filter

  /** The search box: the lower-cased term occurs in the lower-cased product
      name, the lower-cased store id, or the id's decimal string. */
  predicate MatchesSearch(item: InventoryItem, term: string)
  {
    var t := ToLower(term);
    Contains(ToLower(item.productName), t)
      || Contains(ToLower(item.storeId), t)
      || Contains(NatToString(item.id), t)
  }

  /** The store drop-down: "All", or exactly the item's store. */
  predicate MatchesLocation(item: InventoryItem, location: string)
  {
    location == AllLocations || item.storeId == location
  }

  /** The rows the table shows before pagination. */
  function FilterInventory(inv: seq<InventoryItem>, term: string, location: string): (r: seq<InventoryItem>)
    ensures |r| <= |inv|
    ensures forall x :: x in r <==> x in inv && MatchesSearch(x, term) && MatchesLocation(x, location)
    ensures location != AllLocations ==> forall x :: x in r ==> x.storeId == location
  {
    Filter(inv, x => MatchesSearch(x, term) && MatchesLocation(x, location))
  }

  /** Filtering a concatenation filters each part, so kept rows stay in input order. */
  lemma FilterInventoryKeepsOrder(a: seq<InventoryItem>, b: seq<InventoryItem>, term: string, location: string)
    ensures FilterInventory(a + b, term, location) == FilterInventory(a, term, location) + FilterInventory(b, term, location)
  {
    FilterConcat(a, b, x => MatchesSearch(x, term) && MatchesLocation(x, location));
  }

  /** With an empty search box and "All" selected the table shows the whole inventory. */
  lemma FilterInventoryIdentity(inv: seq<InventoryItem>)
    ensures FilterInventory(inv, "", AllLocations) == inv
  {
    forall x | x in inv
      ensures MatchesSearch(x, "") && MatchesLocation(x, AllLocations)
    {
      ContainsEmpty(ToLower(x.productName));
    }
    FilterAll(inv, x => MatchesSearch(x, "") && MatchesLocation(x, AllLocations));
  }

  /** The search ignores the case of the term. */
  lemma SearchIgnoresTermCase(item: InventoryItem, term: string)
    ensures MatchesSearch(item, term) == MatchesSearch(item, ToLower(term))
  {
    ToLowerIdempotent(term);
  }

  // ---------------------------------------------------------------- drop-down

  function StoreIds(inv: seq<InventoryItem>): (r: seq<string>)
    ensures |r| == |inv|
    ensures forall i :: 0 <= i < |inv| ==> r[i] == inv[i].storeId
  {
    Map(inv, (x: InventoryItem) => x.storeId)
  }

  /** The store drop-down: "All", then each store id once, in order of first appearance. */
  function Locations(inv: seq<InventoryItem>): (r: seq<string>)
    ensures |r| >= 1 && r[0] == AllLocations
    ensures forall s :: s in r[1..] <==> exists i :: 0 <= i < |inv| && inv[i].storeId == s
    ensures NoDups(r[1..])
    ensures forall i :: 1 <= i < |r| ==> r[i] in StoreIds(inv)
    ensures forall i, j :: 1 <= i < j < |r| ==>
              FirstIndex(StoreIds(inv), r[i]) < FirstIndex(StoreIds(inv), r[j])
  {
    var ids := StoreIds(inv);
    var d := Dedup(ids);
    var r := [AllLocations] + d;
    assert r[1..] == d;
    assert forall s :: s in ids <==> exists i :: 0 <= i < |inv| && inv[i].storeId == s by {
      forall s | s in ids
        ensures exists i :: 0 <= i < |inv| && inv[i].storeId == s
      {
        var k :| 0 <= k < |ids| && ids[k] == s;
        assert inv[k].storeId == s;
      }
    }
    r
  }

  // ---------------------------------------------------------------- counters

  datatype InventoryStats = InventoryStats(
    totalItems: nat, totalStock: int, expiringItems: nat, highDemandItems: nat)

  /** The page's own "expiring soon" test, written without the classifier. */
  predicate ExpiresWithinWeek(item: InventoryItem)
  {
    item.daysToExpiry <= CriticalWithinDays
  }

  predicate IsCritical(item: InventoryItem)
  {
    GetExpiryStatus(item.daysToExpiry) == Critical
  }

  predicate IsHighDemand(item: InventoryItem)
  {
    ClassifyDemand(item.predictedDemand) == High
  }

  /** The four counters above the table. */
  function ComputeStats(inv: seq<InventoryItem>): (st: InventoryStats)
    ensures st.totalItems == |inv|
    ensures st.expiringItems == |Filter(inv, IsCritical)| <= st.totalItems
    ensures st.highDemandItems == |Filter(inv, IsHighDemand)| <= st.totalItems
  {
    var expiring := Filter(inv, ExpiresWithinWeek);
    var highDemand := Filter(inv, (x: InventoryItem) => x.predictedDemand > HighDemandAbove);
    FilterExt(inv, ExpiresWithinWeek, IsCritical);
    FilterExt(inv, (x: InventoryItem) => x.predictedDemand > HighDemandAbove, IsHighDemand);
    InventoryStats(|inv|, SumInt(inv, StockOf), |expiring|, |highDemand|)
  }

  function StockOf(item: InventoryItem): int { item.stock }

  /** The stock counter is 0 for no rows and a row's own stock for one row,
      adds up across any split of the list, and is never negative when no row
      has negative stock. */
  lemma {:induction false} TotalStockAdditive(a: seq<InventoryItem>, b: seq<InventoryItem>)
    ensures ComputeStats([]).totalStock == 0
    ensures |a| == 1 ==> ComputeStats(a).totalStock == a[0].stock
    ensures ComputeStats(a + b).totalStock == ComputeStats(a).totalStock + ComputeStats(b).totalStock
    ensures (forall x :: x in a ==> x.stock >= 0) ==> ComputeStats(a).totalStock >= 0
  {
    SumIntConcat(a, b, StockOf);
    if |a| == 1 {
      assert a[1..] == [];
    }
    if forall x :: x in a ==> x.stock >= 0 {
      SumIntNonNegative(a, StockOf);
    }
  }

  // ---------------------------------------------------------------- pagination

  /** `slice(0, showMore ? n : 20)`: the rows actually rendered. */
  function VisibleRows<T>(rows: seq<T>, showMore: bool): (r: seq<T>)
    ensures |r| <= |rows| && r == rows[..|r|]
    ensures showMore ==> r == rows
    ensures !showMore ==> |r| == if |rows| < PageSize then |rows| else PageSize
  {
    if showMore || |rows| <= PageSize then rows else rows[..PageSize]
  }

  /** The "Show More Items" button is rendered. */
  predicate ShowMoreButton(showMore: bool, n: nat)
  {
    !showMore && n > PageSize
  }

  /** The X in "Showing X of n items". */
  function ShowingCount(showMore: bool, n: nat): nat
  {
    if showMore then n else if PageSize < n then PageSize else n
  }

  /** The "Showing X of n" figure is the number of rendered rows, and the
      button is offered exactly when some filtered rows are hidden. */
  lemma PaginationConsistent<T>(rows: seq<T>, showMore: bool)
    ensures ShowingCount(showMore, |rows|) == |VisibleRows(rows, showMore)|
    ensures ShowMoreButton(showMore, |rows|) <==> |VisibleRows(rows, showMore)| < |rows|
  {
  }
}
