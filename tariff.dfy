/**
 * `get_tariff_data` and `calculate_tariff` of tarifas.py: the trip fields
 * read from the console, and the pricing formula that turns them and the
 * tolls into the result record.
 */
module Tariff {
  import opened Wrappers
  import opened Input
  import opened Tolls

  /** The eight values `get_tariff_data` returns. */
  datatype TariffData = TariffData(
    client: string, origin: string, destination: string, cargoType: string,
    distanceKm: real, ratePerKm: real, operationalMargin: real, discounts: real)

  /** What the four retry loops of `get_tariff_data` let through. */
  predicate Accepted(d: TariffData) {
    && Positive(d.distanceKm)
    && Positive(d.ratePerKm)
    && NonNegative(d.operationalMargin)
    && NonNegative(d.discounts)
  }

  /** The outcome `get_tariff_data` has on the lines from `pos` on: four text
      lines, then distance, rate, margin and discounts, each retried until
      accepted; None at the end of the input when it runs out first. */
  function TariffDataOutcome(input: seq<Line>, pos: nat): (res: (Option<TariffData>, nat))
    requires pos <= |input|
    ensures pos <= res.1 <= |input|
    ensures res.0.None? ==> res.1 == |input|
    ensures res.0.Some? ==> pos + 4 <= res.1 && Accepted(res.0.value)
    ensures res.0.Some? ==> && res.0.value.client == input[pos].stripped
                            && res.0.value.origin == input[pos + 1].stripped
                            && res.0.value.destination == input[pos + 2].stripped
                            && res.0.value.cargoType == input[pos + 3].stripped
  {
    if |input| < pos + 4 then (None, |input|)
    else
      var distance := Scan(input, pos + 4, RealValue, Positive);
      var rate := Scan(input, distance.1, RealValue, Positive);
      var margin := Scan(input, rate.1, RealValue, NonNegative);
      var discounts := Scan(input, margin.1, RealValue, NonNegative);
      if distance.0.None? || rate.0.None? || margin.0.None? || discounts.0.None? then (None, discounts.1)
      else
        (Some(TariffData(input[pos].stripped, input[pos + 1].stripped, input[pos + 2].stripped, input[pos + 3].stripped,
                         distance.0.value, rate.0.value, margin.0.value, discounts.0.value)),
         discounts.1)
  }

  /**
   * `get_tariff_data`: client, origin, destination and cargo type as typed
   * (stripped, possibly empty), then the four numbers through their retry
   * loops. Whatever it returns passes every field's rule.
   */
  method GetTariffData(input: seq<Line>, start: nat) returns (r: Option<TariffData>, next: nat)
    requires start <= |input|
    ensures next <= |input|
    ensures r.Some? ==> Accepted(r.value)
    ensures r.None? ==> next == |input|
    ensures (r, next) == TariffDataOutcome(input, start)
  {
    if |input| < start + 4 {
      return None, |input|;  // EOFError at one of the text prompts
    }
    var client := input[start].stripped;
    var origin := input[start + 1].stripped;
    var destination := input[start + 2].stripped;
    var cargoType := input[start + 3].stripped;
    var distance, rate, margin, discounts;
    distance, next := ReadValidated(input, start + 4, RealValue, Positive);
    rate, next := ReadValidated(input, next, RealValue, Positive);
    margin, next := ReadValidated(input, next, RealValue, NonNegative);
    discounts, next := ReadValidated(input, next, RealValue, NonNegative);
    if distance.None? || rate.None? || margin.None? || discounts.None? {
      return None, next;  // EOFError inside one of the retry loops
    }
    r := Some(TariffData(client, origin, destination, cargoType,
                         distance.value, rate.value, margin.value, discounts.value));
  }

  /** The dict `calculate_tariff` returns. */
  datatype TariffResult = TariffResult(
    client: string, origin: string, destination: string, cargoType: string,
    distanceKm: real, ratePerKm: real,
    baseCost: real, operationalMarginPercent: real, costWithMargin: real,
    tolls: TollTable, totalTolls: real,
    costWithTolls: real, discounts: real, finalCost: real)

  /** The price after discounts, clamped at zero: the larger of 0 and the difference. */
  function AfterDiscounts(costWithTolls: real, discounts: real): (r: real)
    ensures r >= 0.0
    ensures r >= costWithTolls - discounts
    ensures r == 0.0 || r == costWithTolls - discounts
  {
    if costWithTolls - discounts < 0.0 then 0.0 else costWithTolls - discounts
  }

  /**
   * `calculate_tariff`: base cost = distance x rate, the margin markup, plus
   * the toll total, minus discounts, never below zero; the inputs are carried
   * into the result unchanged.
   */
  function CalculateTariff(tolls: TollTable, totalTolls: real, data: TariffData): (r: TariffResult)
    ensures r.finalCost >= 0.0
    ensures data.discounts <= r.costWithTolls ==> r.finalCost == r.costWithTolls - data.discounts
    ensures data.discounts > r.costWithTolls ==> r.finalCost == 0.0
    ensures r.operationalMarginPercent == data.operationalMargin * 100.0
    ensures && r.client == data.client && r.origin == data.origin && r.destination == data.destination
            && r.cargoType == data.cargoType && r.distanceKm == data.distanceKm && r.ratePerKm == data.ratePerKm
            && r.tolls == tolls && r.totalTolls == totalTolls && r.discounts == data.discounts
  {
    var baseCost := data.distanceKm * data.ratePerKm;
    var costWithMargin := baseCost * (1.0 + data.operationalMargin);
    var costWithTolls := costWithMargin + totalTolls;
    var finalCost := AfterDiscounts(costWithTolls, data.discounts);
    TariffResult(data.client, data.origin, data.destination, data.cargoType,
                 data.distanceKm, data.ratePerKm,
                 baseCost, data.operationalMargin * 100.0, costWithMargin,
                 tolls, totalTolls, costWithTolls, data.discounts, finalCost)
  }

  /** Under accepted inputs the costs only grow along the pipeline until the
      discounts: 0 < base <= with margin <= with tolls, and the final cost
      is at most the cost with tolls. */
  lemma CostsGrowAlongPipeline(tolls: TollTable, totalTolls: real, data: TariffData)
    requires Accepted(data) && totalTolls >= 0.0
    ensures var r := CalculateTariff(tolls, totalTolls, data);
            && r.baseCost == data.distanceKm * data.ratePerKm
            && 0.0 < r.baseCost <= r.costWithMargin <= r.costWithTolls
            && r.costWithMargin == r.baseCost * (1.0 + data.operationalMargin)
            && r.costWithTolls == r.costWithMargin + totalTolls
            && r.finalCost <= r.costWithTolls
  {
  }

  /** Clamping keeps order: more before discounts is never less after. */
  lemma AfterDiscountsMonotone(x: real, y: real, discounts: real)
    requires x <= y
    ensures AfterDiscounts(x, discounts) <= AfterDiscounts(y, discounts)
  {
  }

  /** Scaling by a non-negative factor keeps order. */
  lemma ScaleMonotone(x: real, y: real, factor: real)
    requires x <= y && factor >= 0.0
    ensures x * factor <= y * factor
  {
  }

  /** The steps after the base cost (markup, tolls, discounts) keep order. */
  lemma PricingMonotone(base: real, larger: real, factor: real, totalTolls: real, discounts: real)
    requires base <= larger && factor >= 0.0
    ensures AfterDiscounts(base * factor + totalTolls, discounts)
            <= AfterDiscounts(larger * factor + totalTolls, discounts)
  {
    ScaleMonotone(base, larger, factor);
    AfterDiscountsMonotone(base * factor + totalTolls, larger * factor + totalTolls, discounts);
  }

  /** A longer trip never costs less. */
  lemma FinalCostGrowsWithDistance(tolls: TollTable, totalTolls: real, data: TariffData, longer: real)
    requires Accepted(data) && data.distanceKm <= longer
    ensures CalculateTariff(tolls, totalTolls, data).finalCost
            <= CalculateTariff(tolls, totalTolls, data.(distanceKm := longer)).finalCost
  {
    ScaleMonotone(data.distanceKm, longer, data.ratePerKm);
    PricingMonotone(data.distanceKm * data.ratePerKm, longer * data.ratePerKm, 1.0 + data.operationalMargin,
                    totalTolls, data.discounts);
  }

  /** A higher toll total never lowers the price. */
  lemma FinalCostGrowsWithTolls(tolls: TollTable, totalTolls: real, data: TariffData, more: real)
    requires totalTolls <= more
    ensures CalculateTariff(tolls, totalTolls, data).finalCost <= CalculateTariff(tolls, more, data).finalCost
  {
    var r := CalculateTariff(tolls, totalTolls, data);
    AfterDiscountsMonotone(r.costWithMargin + totalTolls, r.costWithMargin + more, data.discounts);
  }

  /** Larger discounts never raise the price. */
  lemma FinalCostShrinksWithDiscounts(tolls: TollTable, totalTolls: real, data: TariffData, larger: real)
    requires data.discounts <= larger
    ensures CalculateTariff(tolls, totalTolls, data.(discounts := larger)).finalCost
            <= CalculateTariff(tolls, totalTolls, data).finalCost
  {
  }

  /** One toll "Bridge" at 5.00; distance 100, rate 2.0, margin 0.10,
      discounts 3.00. */
  lemma BridgeScenario()
    ensures var tolls := Insert(Empty, "Bridge", 5.0);
            var r := CalculateTariff(tolls, Total(tolls), TariffData("Acme", "X", "Y", "General", 100.0, 2.0, 0.1, 3.0));
            && r.baseCost == 200.0 && r.costWithMargin == 220.0 && r.costWithTolls == 225.0
            && r.finalCost == 222.0 && r.operationalMarginPercent == 10.0
  {
    EmptyTotal();
    InsertTotal(Empty, "Bridge", 5.0);
  }

  /** No tolls (their total is 0, by `EmptyTotal`); distance 50, rate 1.5,
      no margin, no discounts. */
  lemma ZeroTollScenario()
    ensures var r := CalculateTariff(Empty, 0.0, TariffData("", "", "", "", 50.0, 1.5, 0.0, 0.0));
            r.baseCost == 75.0 && r.costWithMargin == 75.0 && r.costWithTolls == 75.0 && r.finalCost == 75.0
  {
  }

  /** Discounts of 100 on a trip worth 10: the price is clamped to zero. */
  lemma DiscountExceedsCostScenario()
    ensures CalculateTariff(Empty, 0.0, TariffData("", "", "", "", 10.0, 1.0, 0.0, 100.0)).finalCost == 0.0
  {
  }
}
