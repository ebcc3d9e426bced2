/** The engine's entry point: check the header, derive features, take the
    predicted demand as given, price every row, and suggest transfers with
    the default thresholds. */
module Pipeline {

  import opened Results
  import opened Engine
  import opened Matcher

  datatype EngineOutput = EngineOutput(priced: seq<Row>, transfers: seq<Suggestion>)

  function WithDemand(row: Row, demand: real): Row
  {
    row.(predictedDemand := demand)
  }

  /** The featured rows, each carrying its predicted demand. */
  function Predict(rows: seq<Row>, demand: seq<real>): (r: seq<Row>)
    requires |demand| == |rows|
    ensures |r| == |rows|
    ensures forall i :: 0 <= i < |rows| ==> r[i] == rows[i].(predictedDemand := demand[i])
  {
    if |rows| == 0 then [] else [WithDemand(rows[0], demand[0])] + Predict(rows[1..], demand[1..])
  }

  /** A missing column stops the run before anything is computed; otherwise
      the rows are featured, given their demand and priced, each within 60%-90%
      of its MRP (for non-negative stock and MRP), and the transfers are the
      matcher's suggestions over the priced table, each backed by a donor row
      and a receiver row. */
  function RunEngine(cols: set<string>, rows: seq<Row>, rawDays: seq<int>, demand: seq<real>,
                     dist: seq<DistanceRow>): (r: Result<EngineOutput, set<string>>)
    requires |rawDays| == |rows| && |demand| == |rows|
    ensures r.Failure? <==> CheckColumns(cols).Failure?
    ensures r.Failure? ==> r.error == CheckColumns(cols).error
    ensures r.Success? ==> |r.value.priced| == |rows|
    ensures r.Success? ==> r.value.priced == ApplyPricing(Predict(AddFeaturesAll(rows, rawDays), demand))
    ensures r.Success? ==> r.value.transfers
                           == SuggestTransfers(r.value.priced, dist, DefaultRelRatio, DefaultAbsDays)
    ensures r.Success? ==> forall i :: 0 <= i < |rows| ==>
              r.value.priced[i].daysToExpiry >= 0
              && (rows[i].stock >= 0 && rows[i].mrp >= 0.0 ==>
                    0.6 * rows[i].mrp <= r.value.priced[i].finalPrice <= 0.9 * rows[i].mrp)
    ensures r.Success? ==> forall t :: t in r.value.transfers ==>
              Justified(t, r.value.priced, DefaultRelRatio, DefaultAbsDays, dist)
  {
    match CheckColumns(cols)
    case Failure(missing) => Failure(missing)
    case Success(_) =>
      var featured := AddFeaturesAll(rows, rawDays);
      var predicted := Predict(featured, demand);
      var priced := ApplyPricing(predicted);
      forall i | 0 <= i < |rows|
        ensures priced[i].daysToExpiry >= 0
        ensures rows[i].stock >= 0 && rows[i].mrp >= 0.0 ==>
                  0.6 * rows[i].mrp <= priced[i].finalPrice <= 0.9 * rows[i].mrp
      {
        assert priced[i] == PriceRow(WithDemand(AddFeatures(rows[i], rawDays[i]), demand[i]));
        PricedRow(rows[i], rawDays[i], demand[i]);
      }
      Success(EngineOutput(priced, SuggestTransfers(priced, dist, DefaultRelRatio, DefaultAbsDays)))
  }

  /** One row through features, demand and pricing keeps its stock and MRP,
      so the pricing bounds apply to the input row's figures. */
  lemma PricedRow(row: Row, rawDays: int, demand: real)
    ensures var p := PriceRow(WithDemand(AddFeatures(row, rawDays), demand));
            p.daysToExpiry >= 0
            && (row.stock >= 0 && row.mrp >= 0.0 ==> 0.6 * row.mrp <= p.finalPrice <= 0.9 * row.mrp)
  {
    var f := WithDemand(AddFeatures(row, rawDays), demand);
    assert f.stock == row.stock && f.mrp == row.mrp && f.daysToExpiry >= 0;
  }
}
