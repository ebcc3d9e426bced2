/** The greedy transfer matcher. Rows are grouped into batches of one product
    with one expiry date. In each batch, donors (surplus over predicted demand,
    and little shelf life or few days left) are visited by falling risk, and
    each donor scans the receivers (a shortfall against predicted demand) from
    the largest shortfall down, sending whole units along routes that have a
    distance entry until its surplus is used up. A donor's surplus shrinks as
    it sends; a receiver's shortfall is read afresh for every donor. */
module Matcher {

  import opened Results
  import opened Numeric
  import opened Seqs
  import opened Sorting
  import opened Engine

  /** One line of the store-to-store distance table. */
  datatype DistanceRow = DistanceRow(fromStore: string, toStore: string, distanceKm: real)

  /** One suggested transfer. */
  datatype Suggestion = Suggestion(
    productId: string,
    expiryDate: int,
    fromStore: string,
    toStore: string,
    quantity: int,
    distanceKm: real,
    remainingRatio: real,
    daysToExpiry: int)

  function Surplus(r: Row): real
  {
    r.stock as real - r.predictedDemand
  }

  predicate IsDonor(r: Row, ratioThr: real, daysThr: int)
  {
    Surplus(r) > 0.0 && (r.remainingRatio <= ratioThr || r.daysToExpiry <= daysThr)
  }

  predicate IsReceiver(r: Row)
  {
    Surplus(r) < 0.0
  }

  /** Value of the surplus per remaining day (days clipped below at 1). */
  function Risk(r: Row): real
  {
    Surplus(r) * r.mrp / MaxInt(r.daysToExpiry, 1) as real
  }

  function NegRisk(r: Row): real
  {
    -Risk(r)
  }

  predicate InBatch(r: Row, pid: string, exp: int)
  {
    r.productId == pid && r.expiryDate == exp
  }

  /** The rows of one (product, expiry date) batch, in input order. */
  function Batch(rows: seq<Row>, pid: string, exp: int): (b: seq<Row>)
    ensures forall x :: x in b <==> x in rows && InBatch(x, pid, exp)
  {
    Filter(rows, (x: Row) => InBatch(x, pid, exp))
  }

  /** The donors of a batch, highest risk first. */
  function Donors(batch: seq<Row>, ratioThr: real, daysThr: int): (d: seq<Row>)
    ensures forall x :: x in d <==> x in batch && IsDonor(x, ratioThr, daysThr)
    ensures forall i, j :: 0 <= i < j < |d| ==> Risk(d[i]) >= Risk(d[j])
    ensures multiset(d) == multiset(Filter(batch, (x: Row) => IsDonor(x, ratioThr, daysThr)))
  {
    var found := Filter(batch, (x: Row) => IsDonor(x, ratioThr, daysThr));
    SortByMembers(found, NegRisk);
    SortBy(found, NegRisk)
  }

  /** The receivers of a batch, largest shortfall (most negative surplus) first. */
  function Receivers(batch: seq<Row>): (r: seq<Row>)
    ensures forall x :: x in r <==> x in batch && IsReceiver(x)
    ensures forall i, j :: 0 <= i < j < |r| ==> Surplus(r[i]) <= Surplus(r[j])
    ensures multiset(r) == multiset(Filter(batch, IsReceiver))
  {
    var found := Filter(batch, IsReceiver);
    SortByMembers(found, Surplus);
    SortBy(found, Surplus)
  }

  predicate Connects(d: DistanceRow, from: string, to: string)
  {
    d.fromStore == from && d.toStore == to
  }

  /** The distance of the first table line for the route, if there is one. */
  function LookupDistance(dist: seq<DistanceRow>, from: string, to: string): (r: Option<real>)
    ensures r.None? <==> forall i :: 0 <= i < |dist| ==> !Connects(dist[i], from, to)
    ensures r.Some? ==> exists i :: 0 <= i < |dist| && Connects(dist[i], from, to)
                          && dist[i].distanceKm == r.value
                          && forall j :: 0 <= j < i ==> !Connects(dist[j], from, to)
  {
    match FindFirst(dist, (d: DistanceRow) => Connects(d, from, to))
    case None => None
    case Some(i) => Some(dist[i].distanceKm)
  }

  function QuantityOf(t: Suggestion): int
  {
    t.quantity
  }

  function TotalQuantity(ts: seq<Suggestion>): int
  {
    SumInt(ts, QuantityOf)
  }

  /** The suggestion carries the batch key and the donor's store, remaining
      ratio and days to expiry. */
  predicate FromDonor(t: Suggestion, pid: string, exp: int, donor: Row)
  {
    t.productId == pid && t.expiryDate == exp && t.fromStore == donor.storeId
    && t.remainingRatio == donor.remainingRatio && t.daysToExpiry == donor.daysToExpiry
  }

  /** The suggestion goes to the receiver's store, no more than its shortfall,
      over a route whose first distance entry it carries. */
  predicate ToReceiver(t: Suggestion, rc: Row, dist: seq<DistanceRow>)
  {
    t.toStore == rc.storeId && t.quantity as real <= -Surplus(rc)
    && LookupDistance(dist, t.fromStore, rc.storeId) == Some(t.distanceKm)
  }

  lemma TotalQuantityPrefixCons(t: Suggestion, rest: seq<Suggestion>, k: nat)
    requires k <= |rest|
    ensures TotalQuantity(([t] + rest)[..k + 1]) == t.quantity + TotalQuantity(rest[..k])
  {
    assert ([t] + rest)[..k + 1] == [t] + rest[..k];
    assert ([t] + rest[..k])[1..] == rest[..k];
  }

  /** The suggestions go to distinct receivers, taken in the receivers' order:
      each one to a later receiver than the one before, within its shortfall
      and over its route. */
  predicate MatchedInOrder(ts: seq<Suggestion>, receivers: seq<Row>, dist: seq<DistanceRow>)
    decreases |receivers|
  {
    |ts| == 0
    || (|receivers| > 0
        && ((ToReceiver(ts[0], receivers[0], dist) && MatchedInOrder(ts[1..], receivers[1..], dist))
            || MatchedInOrder(ts, receivers[1..], dist)))
  }

  /** One donor, holding `surplus` units, scans the receivers in order. Each
      receiver is offered the whole part of the smaller of the surplus and its
      shortfall; the offer is dropped when that is not positive or when the
      route has no distance entry, and the scan ends once the surplus is gone. */
  function ScanReceivers(pid: string, exp: int, donor: Row, surplus: real,
                         receivers: seq<Row>, dist: seq<DistanceRow>): (r: seq<Suggestion>)
    decreases |receivers|
    ensures |r| <= |receivers|
  {
    if |receivers| == 0 then []
    else
      var rc := receivers[0];
      var qty := Trunc(Min(surplus, -Surplus(rc)));
      if qty <= 0 then ScanReceivers(pid, exp, donor, surplus, receivers[1..], dist)
      else match LookupDistance(dist, donor.storeId, rc.storeId)
        case None => ScanReceivers(pid, exp, donor, surplus, receivers[1..], dist)
        case Some(km) =>
          var t := Suggestion(pid, exp, donor.storeId, rc.storeId, qty, km,
                              donor.remainingRatio, donor.daysToExpiry);
          var left := surplus - qty as real;
          if left <= 0.0 then [t]
          else [t] + ScanReceivers(pid, exp, donor, left, receivers[1..], dist)
  }

  /** A donor's scan sends to distinct receivers, in the order they are
      listed, each within its shortfall and over its route. */
  lemma {:induction false} ScanReceiversInOrder(pid: string, exp: int, donor: Row, surplus: real,
                                                receivers: seq<Row>, dist: seq<DistanceRow>)
    ensures MatchedInOrder(ScanReceivers(pid, exp, donor, surplus, receivers, dist), receivers, dist)
    decreases |receivers|
  {
    if |receivers| > 0 {
      ScanReceiversInOrder(pid, exp, donor, surplus, receivers[1..], dist);
      var rc := receivers[0];
      var qty := Trunc(Min(surplus, -Surplus(rc)));
      if qty > 0 && LookupDistance(dist, donor.storeId, rc.storeId).Some? {
        ScanReceiversInOrder(pid, exp, donor, surplus - qty as real, receivers[1..], dist);
      }
    }
  }

  /** Taking the suggestions in order out of `surplus`, each one fits in what
      is left. */
  predicate FitsInSurplus(ts: seq<Suggestion>, surplus: real)
    decreases |ts|
  {
    |ts| == 0
    || (ts[0].quantity as real <= surplus && FitsInSurplus(ts[1..], surplus - ts[0].quantity as real))
  }

  /** The same, stated against prefix totals. */
  lemma {:induction false} FitsInSurplusPrefix(ts: seq<Suggestion>, surplus: real)
    requires FitsInSurplus(ts, surplus)
    ensures forall k :: 0 <= k < |ts| ==> ts[k].quantity as real <= surplus - TotalQuantity(ts[..k]) as real
    decreases |ts|
  {
    if |ts| > 0 {
      var t := ts[0];
      var rest := ts[1..];
      FitsInSurplusPrefix(rest, surplus - t.quantity as real);
      assert ts == [t] + rest;
      assert ts[..0] == [];
      forall k | 1 <= k < |ts|
        ensures ts[k].quantity as real <= surplus - TotalQuantity(ts[..k]) as real
      {
        TotalQuantityPrefixCons(t, rest, k - 1);
      }
    }
  }

  /** Whatever came before each later suggestion left some of `surplus`. */
  predicate ContinuesWhileLeft(ts: seq<Suggestion>, surplus: real)
  {
    forall k :: 1 <= k < |ts| ==> TotalQuantity(ts[..k]) as real < surplus
  }

  lemma ContinuesWhileLeftCons(t: Suggestion, rest: seq<Suggestion>, surplus: real)
    requires t.quantity as real < surplus
    requires ContinuesWhileLeft(rest, surplus - t.quantity as real)
    ensures ContinuesWhileLeft([t] + rest, surplus)
  {
    var r := [t] + rest;
    forall k | 1 <= k < |r|
      ensures TotalQuantity(r[..k]) as real < surplus
    {
      TotalQuantityPrefixCons(t, rest, k - 1);
    }
  }

  /** Whether the first receiver in the scan gets a suggestion. */
  predicate SendsToFirst(donor: Row, surplus: real, receivers: seq<Row>, dist: seq<DistanceRow>)
    requires |receivers| > 0
  {
    Trunc(Min(surplus, -Surplus(receivers[0]))) > 0
    && LookupDistance(dist, donor.storeId, receivers[0].storeId).Some?
  }

  /** A receiver that gets nothing is passed over with the surplus unchanged. */
  lemma ScanSkips(pid: string, exp: int, donor: Row, surplus: real,
                  receivers: seq<Row>, dist: seq<DistanceRow>)
    requires |receivers| > 0 && !SendsToFirst(donor, surplus, receivers, dist)
    ensures ScanReceivers(pid, exp, donor, surplus, receivers, dist)
            == ScanReceivers(pid, exp, donor, surplus, receivers[1..], dist)
  {
  }

  /** A receiver that gets a suggestion heads the result, and the scan goes on
      with the reduced surplus only when some is left. */
  lemma ScanSends(pid: string, exp: int, donor: Row, surplus: real,
                  receivers: seq<Row>, dist: seq<DistanceRow>)
    requires |receivers| > 0 && SendsToFirst(donor, surplus, receivers, dist)
    ensures var r := ScanReceivers(pid, exp, donor, surplus, receivers, dist);
            var qty := Trunc(Min(surplus, -Surplus(receivers[0])));
            var left := surplus - qty as real;
            |r| > 0 && r[0].quantity == qty
            && r[0] == Suggestion(pid, exp, donor.storeId, receivers[0].storeId, qty,
                                  LookupDistance(dist, donor.storeId, receivers[0].storeId).value,
                                  donor.remainingRatio, donor.daysToExpiry)
            && (left <= 0.0 ==> r == [r[0]])
            && (left > 0.0 ==> r == [r[0]] + ScanReceivers(pid, exp, donor, left, receivers[1..], dist))
  {
  }

  /** Every suggestion sends between one unit and the donor's surplus,
      carries the donor's details, and goes to one of the receivers, within its
      shortfall, over a route with a distance entry. */
  predicate ScanSound(r: seq<Suggestion>, pid: string, exp: int, donor: Row, surplus: real,
                      receivers: seq<Row>, dist: seq<DistanceRow>)
  {
    (forall k :: 0 <= k < |r| ==> 1 <= r[k].quantity && r[k].quantity as real <= surplus)
    && (forall k :: 0 <= k < |r| ==> FromDonor(r[k], pid, exp, donor))
    && (forall k :: 0 <= k < |r| ==> HasReceiver(r[k], receivers, dist))
  }

  /** The suggestion goes to one of the receivers, within its shortfall. */
  predicate HasReceiver(t: Suggestion, receivers: seq<Row>, dist: seq<DistanceRow>)
  {
    exists rc :: rc in receivers && ToReceiver(t, rc, dist)
  }

  /** Soundness survives a smaller surplus and fewer receivers. */
  lemma ScanSoundWeaken(r: seq<Suggestion>, pid: string, exp: int, donor: Row,
                        s1: real, s2: real, rs1: seq<Row>, rs2: seq<Row>, dist: seq<DistanceRow>)
    requires ScanSound(r, pid, exp, donor, s1, rs1, dist)
    requires s1 <= s2 && forall x :: x in rs1 ==> x in rs2
    ensures ScanSound(r, pid, exp, donor, s2, rs2, dist)
  {
    forall k | 0 <= k < |r|
      ensures HasReceiver(r[k], rs2, dist)
    {
      assert HasReceiver(r[k], rs1, dist);
      var rc :| rc in rs1 && ToReceiver(r[k], rc, dist);
      assert rc in rs2;
    }
  }

  lemma ScanSoundCons(t: Suggestion, r: seq<Suggestion>, pid: string, exp: int, donor: Row,
                      surplus: real, receivers: seq<Row>, dist: seq<DistanceRow>)
    requires ScanSound([t], pid, exp, donor, surplus, receivers, dist)
    requires ScanSound(r, pid, exp, donor, surplus, receivers, dist)
    ensures ScanSound([t] + r, pid, exp, donor, surplus, receivers, dist)
  {
    assert forall k :: 1 <= k < |[t] + r| ==> ([t] + r)[k] == r[k - 1];
  }

  /** A donor's scan only makes sound suggestions. */
  lemma {:induction false} ScanReceiversSound(pid: string, exp: int, donor: Row, surplus: real,
                                              receivers: seq<Row>, dist: seq<DistanceRow>)
    decreases |receivers|
    ensures ScanSound(ScanReceivers(pid, exp, donor, surplus, receivers, dist),
                      pid, exp, donor, surplus, receivers, dist)
  {
    if |receivers| > 0 {
      var tail := receivers[1..];
      assert forall x :: x in tail ==> x in receivers;
      if !SendsToFirst(donor, surplus, receivers, dist) {
        ScanSkips(pid, exp, donor, surplus, receivers, dist);
        ScanReceiversSound(pid, exp, donor, surplus, tail, dist);
        ScanSoundWeaken(ScanReceivers(pid, exp, donor, surplus, tail, dist), pid, exp, donor,
                        surplus, surplus, tail, receivers, dist);
      } else {
        ScanSends(pid, exp, donor, surplus, receivers, dist);
        var r := ScanReceivers(pid, exp, donor, surplus, receivers, dist);
        var t := r[0];
        var left := surplus - t.quantity as real;
        assert receivers[0] in receivers && ToReceiver(t, receivers[0], dist);
        assert ScanSound([t], pid, exp, donor, surplus, receivers, dist);
        if left > 0.0 {
          var rest := ScanReceivers(pid, exp, donor, left, tail, dist);
          ScanReceiversSound(pid, exp, donor, left, tail, dist);
          ScanSoundWeaken(rest, pid, exp, donor, left, surplus, tail, receivers, dist);
          ScanSoundCons(t, rest, pid, exp, donor, surplus, receivers, dist);
        }
      }
    }
  }

  /** Each quantity a donor sends fits in what is left of its surplus after
      the suggestions before it. */
  lemma {:induction false} ScanReceiversRespectsSurplus(pid: string, exp: int, donor: Row, surplus: real,
                                                        receivers: seq<Row>, dist: seq<DistanceRow>)
    decreases |receivers|
    ensures FitsInSurplus(ScanReceivers(pid, exp, donor, surplus, receivers, dist), surplus)
  {
    if |receivers| > 0 {
      var qty := Trunc(Min(surplus, -Surplus(receivers[0])));
      var left := surplus - qty as real;
      if !SendsToFirst(donor, surplus, receivers, dist) {
        ScanSkips(pid, exp, donor, surplus, receivers, dist);
        ScanReceiversRespectsSurplus(pid, exp, donor, surplus, receivers[1..], dist);
      } else {
        ScanSends(pid, exp, donor, surplus, receivers, dist);
        ScanReceiversRespectsSurplus(pid, exp, donor, left, receivers[1..], dist);
      }
    }
  }

  /** The scan goes past a suggestion only while some surplus is left. */
  lemma {:induction false} ScanReceiversStopsWhenSpent(pid: string, exp: int, donor: Row, surplus: real,
                                                       receivers: seq<Row>, dist: seq<DistanceRow>)
    decreases |receivers|
    ensures ContinuesWhileLeft(ScanReceivers(pid, exp, donor, surplus, receivers, dist), surplus)
  {
    if |receivers| > 0 {
      var r := ScanReceivers(pid, exp, donor, surplus, receivers, dist);
      var qty := Trunc(Min(surplus, -Surplus(receivers[0])));
      var left := surplus - qty as real;
      if !SendsToFirst(donor, surplus, receivers, dist) {
        ScanSkips(pid, exp, donor, surplus, receivers, dist);
        ScanReceiversStopsWhenSpent(pid, exp, donor, surplus, receivers[1..], dist);
      } else if left > 0.0 {
        ScanSends(pid, exp, donor, surplus, receivers, dist);
        ScanReceiversStopsWhenSpent(pid, exp, donor, left, receivers[1..], dist);
        ContinuesWhileLeftCons(r[0], ScanReceivers(pid, exp, donor, left, receivers[1..], dist), surplus);
      } else {
        ScanSends(pid, exp, donor, surplus, receivers, dist);
      }
    }
  }

  /** A donor never sends more than its surplus in total. */
  lemma ScanReceiversTotalWithinSurplus(pid: string, exp: int, donor: Row, surplus: real,
                                        receivers: seq<Row>, dist: seq<DistanceRow>)
    ensures var r := ScanReceivers(pid, exp, donor, surplus, receivers, dist);
            |r| > 0 ==> TotalQuantity(r) as real <= surplus
  {
    var r := ScanReceivers(pid, exp, donor, surplus, receivers, dist);
    ScanReceiversRespectsSurplus(pid, exp, donor, surplus, receivers, dist);
    FitsInSurplusPrefix(r, surplus);
    if |r| > 0 {
      var n := |r| - 1;
      assert r[n].quantity as real <= surplus - TotalQuantity(r[..n]) as real;
      assert r == r[..n] + [r[n]];
      SumIntConcat(r[..n], [r[n]], QuantityOf);
    }
  }

  /** The donor's scan as the engine runs it: a loop over the receivers that
      carries the shrinking surplus and leaves early once it is spent. */
  method ScanReceiversLoop(pid: string, exp: int, donor: Row, surplus: real,
                           receivers: seq<Row>, dist: seq<DistanceRow>) returns (r: seq<Suggestion>)
    ensures r == ScanReceivers(pid, exp, donor, surplus, receivers, dist)
  {
    r := [];
    var left := surplus;
    var i := 0;
    while i < |receivers|
      invariant 0 <= i <= |receivers|
      invariant r + ScanReceivers(pid, exp, donor, left, receivers[i..], dist)
                == ScanReceivers(pid, exp, donor, surplus, receivers, dist)
      decreases |receivers| - i
    {
      var tail := receivers[i..];
      assert tail[1..] == receivers[i + 1..];
      var offer := FirstOffer(pid, exp, donor, left, tail, dist);
      LoopStep(pid, exp, donor, left, tail, dist, r);
      if offer.Some? {
        r := r + [offer.value];
        if left - offer.value.quantity as real <= 0.0 {
          return;
        }
        left := left - offer.value.quantity as real;
      }
      i := i + 1;
    }
    assert r + [] == r;
  }

  /** The suggestion the first receiver of the scan gets, if any. */
  function FirstOffer(pid: string, exp: int, donor: Row, surplus: real,
                      receivers: seq<Row>, dist: seq<DistanceRow>): Option<Suggestion>
    requires |receivers| > 0
  {
    if SendsToFirst(donor, surplus, receivers, dist) then Some(Offer(pid, exp, donor, surplus, receivers, dist))
    else None
  }

  /** One turn of the scan loop, stated on the suggestions made so far. */
  lemma LoopStep(pid: string, exp: int, donor: Row, surplus: real,
                 receivers: seq<Row>, dist: seq<DistanceRow>, done: seq<Suggestion>)
    requires |receivers| > 0
    ensures var offer := FirstOffer(pid, exp, donor, surplus, receivers, dist);
            var whole := done + ScanReceivers(pid, exp, donor, surplus, receivers, dist);
            (offer.None? ==> whole == done + ScanReceivers(pid, exp, donor, surplus, receivers[1..], dist))
            && (offer.Some? && surplus - offer.value.quantity as real <= 0.0 ==>
                  whole == done + [offer.value])
            && (offer.Some? && surplus - offer.value.quantity as real > 0.0 ==>
                  whole == (done + [offer.value])
                           + ScanReceivers(pid, exp, donor, surplus - offer.value.quantity as real,
                                           receivers[1..], dist))
  {
    if SendsToFirst(donor, surplus, receivers, dist) {
      ScanSendsStep(pid, exp, donor, surplus, receivers, dist, done);
    } else {
      ScanSkips(pid, exp, donor, surplus, receivers, dist);
    }
  }

  /** The suggestion made to the first receiver of the scan. */
  function Offer(pid: string, exp: int, donor: Row, surplus: real,
                 receivers: seq<Row>, dist: seq<DistanceRow>): Suggestion
    requires |receivers| > 0 && SendsToFirst(donor, surplus, receivers, dist)
  {
    Suggestion(pid, exp, donor.storeId, receivers[0].storeId,
               Trunc(Min(surplus, -Surplus(receivers[0]))),
               LookupDistance(dist, donor.storeId, receivers[0].storeId).value,
               donor.remainingRatio, donor.daysToExpiry)
  }

  /** The loop's bookkeeping for a receiver that gets a suggestion. */
  lemma ScanSendsStep(pid: string, exp: int, donor: Row, surplus: real,
                      receivers: seq<Row>, dist: seq<DistanceRow>, done: seq<Suggestion>)
    requires |receivers| > 0 && SendsToFirst(donor, surplus, receivers, dist)
    ensures var t := Offer(pid, exp, donor, surplus, receivers, dist);
            var left := surplus - t.quantity as real;
            var whole := done + ScanReceivers(pid, exp, donor, surplus, receivers, dist);
            (left <= 0.0 ==> whole == done + [t])
            && (left > 0.0 ==> whole == (done + [t]) + ScanReceivers(pid, exp, donor, left, receivers[1..], dist))
  {
    ScanSends(pid, exp, donor, surplus, receivers, dist);
    var t := Offer(pid, exp, donor, surplus, receivers, dist);
    var left := surplus - t.quantity as real;
    if left > 0.0 {
      AppendAssoc(done, [t], ScanReceivers(pid, exp, donor, left, receivers[1..], dist));
    }
  }

  /** Every donor of the batch, in the given order, scans the receivers with
      its full surplus. */
  function DonorsPass(pid: string, exp: int, donors: seq<Row>, receivers: seq<Row>,
                      dist: seq<DistanceRow>): (r: seq<Suggestion>)
    ensures forall t :: t in r ==> FromSomeDonor(t, pid, exp, donors, receivers, dist)
  {
    if |donors| == 0 then []
    else
      var first := ScanReceivers(pid, exp, donors[0], Surplus(donors[0]), receivers, dist);
      ScanReceiversSound(pid, exp, donors[0], Surplus(donors[0]), receivers, dist);
      ScanSoundLift(first, pid, exp, donors, receivers, dist);
      var rest := DonorsPass(pid, exp, donors[1..], receivers, dist);
      FromSomeDonorWiden(rest, pid, exp, donors, receivers, dist);
      first + rest
  }

  /** The suggestion sends at least one unit, and no more than the surplus of
      one of the donors it comes from, to one of the receivers. */
  predicate FromSomeDonor(t: Suggestion, pid: string, exp: int, donors: seq<Row>,
                          receivers: seq<Row>, dist: seq<DistanceRow>)
  {
    1 <= t.quantity
    && (exists d :: d in donors && FromDonor(t, pid, exp, d) && t.quantity as real <= Surplus(d))
    && HasReceiver(t, receivers, dist)
  }

  lemma ScanSoundLift(first: seq<Suggestion>, pid: string, exp: int, donors: seq<Row>,
                      receivers: seq<Row>, dist: seq<DistanceRow>)
    requires |donors| > 0
    requires ScanSound(first, pid, exp, donors[0], Surplus(donors[0]), receivers, dist)
    ensures forall t :: t in first ==> FromSomeDonor(t, pid, exp, donors, receivers, dist)
  {
    forall t | t in first
      ensures FromSomeDonor(t, pid, exp, donors, receivers, dist)
    {
      var k :| 0 <= k < |first| && first[k] == t;
      assert donors[0] in donors;
    }
  }

  lemma FromSomeDonorWiden(rest: seq<Suggestion>, pid: string, exp: int, donors: seq<Row>,
                           receivers: seq<Row>, dist: seq<DistanceRow>)
    requires |donors| > 0
    requires forall t :: t in rest ==> FromSomeDonor(t, pid, exp, donors[1..], receivers, dist)
    ensures forall t :: t in rest ==> FromSomeDonor(t, pid, exp, donors, receivers, dist)
  {
    forall t | t in rest
      ensures FromSomeDonor(t, pid, exp, donors, receivers, dist)
    {
      var d :| d in donors[1..] && FromDonor(t, pid, exp, d) && t.quantity as real <= Surplus(d);
      assert d in donors;
    }
  }

  /** Every suggestion is justified by two rows of one batch: a donor it comes
      from, sending at most that donor's surplus, and a receiver it goes to,
      receiving at most that receiver's shortfall, over a known route. */
  predicate Justified(t: Suggestion, rows: seq<Row>, ratioThr: real, daysThr: int,
                      dist: seq<DistanceRow>)
  {
    1 <= t.quantity
    && (exists d :: d in rows && InBatch(d, t.productId, t.expiryDate) && IsDonor(d, ratioThr, daysThr)
                    && FromDonor(t, t.productId, t.expiryDate, d) && t.quantity as real <= Surplus(d))
    && (exists rc :: rc in rows && InBatch(rc, t.productId, t.expiryDate) && IsReceiver(rc)
                     && ToReceiver(t, rc, dist))
  }

  /** The suggestions for one batch; none when it lacks donors or receivers. */
  function SuggestForBatch(rows: seq<Row>, pid: string, exp: int, ratioThr: real, daysThr: int,
                           dist: seq<DistanceRow>): (r: seq<Suggestion>)
    ensures (forall x :: x in rows && InBatch(x, pid, exp) ==> !IsDonor(x, ratioThr, daysThr)) ==> r == []
    ensures (forall x :: x in rows && InBatch(x, pid, exp) ==> !IsReceiver(x)) ==> r == []
    ensures forall t :: t in r ==> t.productId == pid && t.expiryDate == exp
    ensures forall t :: t in r ==> Justified(t, rows, ratioThr, daysThr, dist)
  {
    var batch := Batch(rows, pid, exp);
    var donors := Donors(batch, ratioThr, daysThr);
    var receivers := Receivers(batch);
    if |donors| == 0 || |receivers| == 0 then []
    else
      assert donors[0] in donors;
      assert receivers[0] in receivers;
      DonorsPass(pid, exp, donors, receivers, dist)
  }

  function KeyOf(r: Row): (string, int)
  {
    (r.productId, r.expiryDate)
  }

  /** The distinct (product, expiry date) pairs, in first-seen order. */
  function BatchKeys(rows: seq<Row>): (keys: seq<(string, int)>)
    ensures NoDups(keys)
    ensures forall k :: k in keys <==> exists x :: x in rows && KeyOf(x) == k
    ensures forall k :: k in keys ==> k in Map(rows, KeyOf)
    ensures forall i, j :: 0 <= i < j < |keys| ==>
              FirstIndex(Map(rows, KeyOf), keys[i]) < FirstIndex(Map(rows, KeyOf), keys[j])
  {
    var all := Map(rows, KeyOf);
    assert forall x :: x in rows ==> KeyOf(x) in all;
    Dedup(all)
  }

  function SuggestOverKeys(rows: seq<Row>, keys: seq<(string, int)>, ratioThr: real, daysThr: int,
                           dist: seq<DistanceRow>): (r: seq<Suggestion>)
    ensures forall t :: t in r ==> (t.productId, t.expiryDate) in keys
    ensures forall t :: t in r ==> Justified(t, rows, ratioThr, daysThr, dist)
  {
    if |keys| == 0 then []
    else
      var here := SuggestForBatch(rows, keys[0].0, keys[0].1, ratioThr, daysThr, dist);
      here + SuggestOverKeys(rows, keys[1..], ratioThr, daysThr, dist)
  }

  /** All suggestions, batch by batch in first-seen batch order. */
  function SuggestTransfers(rows: seq<Row>, dist: seq<DistanceRow>, ratioThr: real, daysThr: int)
    : (r: seq<Suggestion>)
    ensures forall t :: t in r ==> Justified(t, rows, ratioThr, daysThr, dist)
    ensures forall t :: t in r ==> exists x :: x in rows && KeyOf(x) == (t.productId, t.expiryDate)
  {
    SuggestOverKeys(rows, BatchKeys(rows), ratioThr, daysThr, dist)
  }

  function ExampleDonor(store: string): Row
  {
    Row(store, "P", 0, 10, 10, 0.0, 1.0, 5.0, 1, 0.1, 0.0, 0.0, 0.0)
  }

  function ExampleReceiver(store: string): Row
  {
    Row(store, "P", 0, 0, 10, 0.0, 1.0, 5.0, 1, 0.1, 0.0, 0.0, 0.0)
  }

  /** A receiver's shortfall is not reduced by what earlier donors sent it:
      two donors with 5 spare units each both send 5 to a receiver short by 5. */
  lemma ShortfallReadAfreshPerDonor()
    ensures -Surplus(ExampleReceiver("C")) == 5.0
    ensures var r := DonorsPass("P", 0, [ExampleDonor("A"), ExampleDonor("B")], [ExampleReceiver("C")],
                                [DistanceRow("A", "C", 4.0), DistanceRow("B", "C", 6.0)]);
            |r| == 2 && r[0].toStore == "C" && r[1].toStore == "C" && TotalQuantity(r) == 10
  {
    var dist := [DistanceRow("A", "C", 4.0), DistanceRow("B", "C", 6.0)];
    var rc := [ExampleReceiver("C")];
    assert Trunc(Min(5.0, 5.0)) == 5;
    assert LookupDistance(dist, "A", "C") == Some(4.0);
    assert LookupDistance(dist, "B", "C") == Some(6.0);
    var a := ScanReceivers("P", 0, ExampleDonor("A"), 5.0, rc, dist);
    var b := ScanReceivers("P", 0, ExampleDonor("B"), 5.0, rc, dist);
    assert a == [Suggestion("P", 0, "A", "C", 5, 4.0, 0.1, 1)];
    assert b == [Suggestion("P", 0, "B", "C", 5, 6.0, 0.1, 1)];
    assert DonorsPass("P", 0, [ExampleDonor("B")], rc, dist) == b + [];
    assert DonorsPass("P", 0, [ExampleDonor("A"), ExampleDonor("B")], rc, dist) == a + b;
  }

  /** A donor with 7 spare units facing two receivers short by 5 each sends 5
      to the first and the remaining 2 to the second. */
  lemma ScanSplitsSurplusExample()
    ensures var r := ScanReceivers("P", 0, ExampleDonor("A"), 7.0,
                                   [ExampleReceiver("B"), ExampleReceiver("C")],
                                   [DistanceRow("A", "B", 3.0), DistanceRow("A", "C", 8.0)]);
            |r| == 2 && r[0].toStore == "B" && r[0].quantity == 5
            && r[1].toStore == "C" && r[1].quantity == 2 && r[1].distanceKm == 8.0
  {
    var dist := [DistanceRow("A", "B", 3.0), DistanceRow("A", "C", 8.0)];
    var rcs := [ExampleReceiver("B"), ExampleReceiver("C")];
    assert Trunc(Min(7.0, 5.0)) == 5;
    assert Trunc(Min(2.0, 5.0)) == 2;
    assert LookupDistance(dist, "A", "B") == Some(3.0);
    assert !Connects(dist[0], "A", "C");
    assert LookupDistance(dist, "A", "C") == Some(8.0);
    assert rcs[1..] == [ExampleReceiver("C")];
    var second := ScanReceivers("P", 0, ExampleDonor("A"), 2.0, [ExampleReceiver("C")], dist);
    assert second == [Suggestion("P", 0, "A", "C", 2, 8.0, 0.1, 1)];
  }
}
