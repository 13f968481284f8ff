/**
 * The admin app's client-side price calculator: from an import price in
 * CNY, shipping and handling costs, an exchange rate, a quantity and
 * three rates (returns, platform fee, profit margin) to a suggested
 * selling price, with the intermediate steps. Arithmetic is over the
 * reals.
 */
module CostCalculation {
  import opened Wrappers

  /** `CalculatePriceDto`; an absent (or `NaN`) field is `None`. */
  datatype CalculatePriceDto = CalculatePriceDto(
    importPrice: Option<real>,
    domesticShippingCN: Option<real>,
    internationalShippingVN: Option<real>,
    handlingFee: Option<real>,
    exchangeRateCNY: Option<real>,
    quantity: Option<real>,
    returnRate: Option<real>,
    platformFeeRate: Option<real>,
    profitMarginRate: Option<real>)

  datatype Inputs = Inputs(
    importPriceCNY: real, domesticShippingCNY: real, internationalShippingVND: real, handlingFeeVND: real,
    exchangeRateCNY: real, quantity: real, returnRate: real, platformFeeRate: real, profitMarginRate: real)

  datatype Steps = Steps(
    totalCNYCost: real, totalCNYInVND: real, totalVNDCost: real, baseCostPerUnit: real,
    effectiveCostPerUnit: real, priceBeforePlatformFee: real, suggestedPrice: real,
    netProfitPerUnit: real, breakEvenPrice: real)

  /** `profitMarginPercentage` is `NaN` (here `None`) when the effective cost is zero. */
  datatype Percentages = Percentages(
    profitMarginPercentage: Option<real>, platformFeePercentage: real, returnRatePercentage: real)

  datatype Breakdown = Breakdown(inputs: Inputs, steps: Steps, percentages: Percentages)

  datatype PriceCalculationResult = PriceCalculationResult(
    baseCost: real, effectiveCost: real, suggestedSellingPrice: real, netProfit: real,
    breakEvenPrice: real, calculationBreakdown: Breakdown)

  /** `x || d` on a number: absent and zero both give the default. */
  function OrDefault(x: Option<real>, d: real): real {
    if x.Some? && x.value != 0.0 then x.value else d
  }

  /** `!x || x <= 0`: the guard that rejects a missing or non-positive input. */
  predicate Missing(x: Option<real>) {
    x.None? || x.value <= 0.0
  }

  /** `calculatePrice(dto)`. */
  function CalculatePrice(dto: CalculatePriceDto): Option<PriceCalculationResult> {
    if Missing(dto.importPrice) || Missing(dto.exchangeRateCNY) || Missing(dto.quantity) then None
    else
      var importPrice := OrDefault(dto.importPrice, 0.0);
      var domesticShippingCN := OrDefault(dto.domesticShippingCN, 0.0);
      var internationalShippingVN := OrDefault(dto.internationalShippingVN, 0.0);
      var handlingFee := OrDefault(dto.handlingFee, 0.0);
      var exchangeRateCNY := OrDefault(dto.exchangeRateCNY, 3600.0);
      var quantity := OrDefault(dto.quantity, 1.0);
      var returnRate := OrDefault(dto.returnRate, 0.0);
      var platformFeeRate := OrDefault(dto.platformFeeRate, 0.0);
      var profitMarginRate := OrDefault(dto.profitMarginRate, 0.0);
      var totalCNYCost := importPrice + domesticShippingCN;
      var totalCNYInVND := totalCNYCost * exchangeRateCNY;
      var totalVNDCost := totalCNYInVND + internationalShippingVN + handlingFee;
      var baseCost := totalVNDCost / quantity;
      if returnRate >= 1.0 then None
      else
        var effectiveCost := baseCost / (1.0 - returnRate);
        if platformFeeRate >= 1.0 then None
        else
          var suggestedSellingPrice := (effectiveCost * (1.0 + profitMarginRate)) / (1.0 - platformFeeRate);
          var netProfit := suggestedSellingPrice * (1.0 - platformFeeRate) - effectiveCost;
          var breakEvenPrice := effectiveCost / (1.0 - platformFeeRate);
          Some(PriceCalculationResult(
            baseCost, effectiveCost, suggestedSellingPrice, netProfit, breakEvenPrice,
            Breakdown(
              Inputs(importPrice, domesticShippingCN, internationalShippingVN, handlingFee,
                     exchangeRateCNY, quantity, returnRate, platformFeeRate, profitMarginRate),
              Steps(totalCNYCost, totalCNYInVND, totalVNDCost, baseCost, effectiveCost,
                    suggestedSellingPrice * (1.0 - platformFeeRate), suggestedSellingPrice,
                    netProfit, breakEvenPrice),
              Percentages(if effectiveCost == 0.0 then None else Some((netProfit / effectiveCost) * 100.0),
                          platformFeeRate * 100.0, returnRate * 100.0))))
  }

  /** The abbreviations the formulas below use: R, F and G with absent meaning zero. */
  function R(dto: CalculatePriceDto): real { OrDefault(dto.returnRate, 0.0) }
  function F(dto: CalculatePriceDto): real { OrDefault(dto.platformFeeRate, 0.0) }
  function G(dto: CalculatePriceDto): real { OrDefault(dto.profitMarginRate, 0.0) }

  /** No result exactly when a required input is missing or non-positive, or a rate that is divided by reaches 1. */
  lemma NullCases(dto: CalculatePriceDto)
    ensures CalculatePrice(dto).None? <==>
      Missing(dto.importPrice) || Missing(dto.exchangeRateCNY) || Missing(dto.quantity)
      || R(dto) >= 1.0 || F(dto) >= 1.0
  {
  }

  /** The base, effective and suggested prices follow the stated formulas, over the given inputs. */
  lemma Formulas(dto: CalculatePriceDto)
    requires CalculatePrice(dto).Some?
    ensures var r := CalculatePrice(dto).value;
      var i := dto.importPrice.value;
      var x := dto.exchangeRateCNY.value;
      var q := dto.quantity.value;
      var d := OrDefault(dto.domesticShippingCN, 0.0);
      var v := OrDefault(dto.internationalShippingVN, 0.0);
      var h := OrDefault(dto.handlingFee, 0.0);
      r.baseCost == ((i + d) * x + v + h) / q
      && r.effectiveCost == r.baseCost / (1.0 - R(dto))
      && r.suggestedSellingPrice == r.effectiveCost * (1.0 + G(dto)) / (1.0 - F(dto))
      && r.breakEvenPrice == r.effectiveCost / (1.0 - F(dto))
  {
  }

  /** `y * z / z == y` for a non-zero `z`. */
  lemma CancelDivision(y: real, z: real)
    requires z != 0.0
    ensures y / z * z == y
  {
  }

  /** The net profit per unit is the effective cost times the margin rate. */
  lemma NetProfitIsMargin(dto: CalculatePriceDto)
    requires CalculatePrice(dto).Some?
    ensures var r := CalculatePrice(dto).value;
      r.netProfit == r.effectiveCost * G(dto)
      && r.calculationBreakdown.steps.priceBeforePlatformFee == r.effectiveCost * (1.0 + G(dto))
  {
    var r := CalculatePrice(dto).value;
    var e := r.effectiveCost;
    CancelDivision(e * (1.0 + G(dto)), 1.0 - F(dto));
    assert r.suggestedSellingPrice * (1.0 - F(dto)) == e * (1.0 + G(dto));
  }

  /** With a non-negative cost and margin, the break-even price does not exceed the suggested price. */
  lemma BreakEvenBelowSuggested(dto: CalculatePriceDto)
    requires CalculatePrice(dto).Some?
    requires CalculatePrice(dto).value.effectiveCost >= 0.0 && G(dto) >= 0.0
    ensures CalculatePrice(dto).value.breakEvenPrice <= CalculatePrice(dto).value.suggestedSellingPrice
  {
    var r := CalculatePrice(dto).value;
    var b := r.effectiveCost / (1.0 - F(dto));
    assert b >= 0.0;
    assert r.suggestedSellingPrice == b * (1.0 + G(dto));
    assert b * (1.0 + G(dto)) == b + b * G(dto);
    assert b * G(dto) >= 0.0;
  }

  /** The percentages: the margin in percent when the cost is non-zero (`NaN` otherwise), and the two rates in percent. */
  lemma PercentagesShown(dto: CalculatePriceDto)
    requires CalculatePrice(dto).Some?
    ensures var r := CalculatePrice(dto).value;
      var p := r.calculationBreakdown.percentages;
      p.platformFeePercentage == F(dto) * 100.0 && p.returnRatePercentage == R(dto) * 100.0
      && (r.effectiveCost == 0.0 <==> p.profitMarginPercentage.None?)
      && (r.effectiveCost != 0.0 ==> p.profitMarginPercentage == Some(G(dto) * 100.0))
  {
    var r := CalculatePrice(dto).value;
    NetProfitIsMargin(dto);
    if r.effectiveCost != 0.0 {
      assert r.netProfit / r.effectiveCost == G(dto);
    }
  }

  /** With non-negative costs and rates below one, every price is positive. */
  lemma PositiveWhenCostsNonNegative(dto: CalculatePriceDto)
    requires CalculatePrice(dto).Some?
    requires OrDefault(dto.domesticShippingCN, 0.0) >= 0.0 && OrDefault(dto.internationalShippingVN, 0.0) >= 0.0
    requires OrDefault(dto.handlingFee, 0.0) >= 0.0 && G(dto) >= 0.0
    ensures var r := CalculatePrice(dto).value;
      r.baseCost > 0.0 && r.effectiveCost > 0.0 && r.breakEvenPrice > 0.0
      && r.suggestedSellingPrice > 0.0 && r.netProfit >= 0.0
  {
    var r := CalculatePrice(dto).value;
    var i := dto.importPrice.value;
    var x := dto.exchangeRateCNY.value;
    var d := OrDefault(dto.domesticShippingCN, 0.0);
    assert (i + d) * x > 0.0;
    assert r.baseCost > 0.0;
    assert r.effectiveCost > 0.0;
    NetProfitIsMargin(dto);
    assert r.effectiveCost * (1.0 + G(dto)) > 0.0;
  }
}
