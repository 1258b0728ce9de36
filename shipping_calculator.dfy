/** The shipping price: a tiered per-kilogram euro rate, converted into the
    display currency, plus an optional 20% insurance surcharge
    (src/hooks/useShippingCalculator.ts). */
module ShippingCalculator {
  import opened Optional
  import opened Currencies
  import opened ShippingTypes

  datatype Costs = Costs(shipping: real, insurance: real, total: real)

  /** The hook's state before its effect first runs. */
  const NoCosts := Costs(0.0, 0.0, 0.0)

  /** From this weight in kilograms on, the cheaper rate applies. */
  const HeavyFromKg: real := 7.0
  /** Euros per kilogram below `HeavyFromKg`. */
  const LightRate: real := 10.0
  /** Euros per kilogram from `HeavyFromKg` on. */
  const HeavyRate: real := 8.0
  /** Fraction of the shipping cost charged for insurance. */
  const InsuranceFraction: real := 0.2

  /** The euro rate per kilogram for a positive weight: the light rate
      exactly below the threshold, and always positive. */
  function RatePerKg(weight: real): (rate: real)
    ensures rate > 0.0
    ensures rate == LightRate <==> weight < HeavyFromKg
  {
    if weight < HeavyFromKg then LightRate else HeavyRate
  }

  /** `calculateCosts`: the costs for one (weight, insurance, currency). */
  function CalculateCosts(weight: real, insured: bool, currency: Currency): (c: Costs)
    ensures c.total == c.shipping + c.insurance
    ensures 0.0 <= currency.rate ==> 0.0 <= c.shipping && 0.0 <= c.insurance && c.shipping <= c.total
    ensures 0.0 < currency.rate ==> (c.total == 0.0 <==> weight <= 0.0)
  {
    var shippingCost :=
      if weight > 0.0 then Convert(weight * RatePerKg(weight), Table[0], currency) else 0.0;
    var insuranceCost := if insured then shippingCost * InsuranceFraction else 0.0;
    Costs(shippingCost, insuranceCost, shippingCost + insuranceCost)
  }

  /** The costs shown for a form: only weight and insurance enter, and the
      total is the piecewise euro price in the display currency, with the
      surcharge when insured. */
  function CostsFor(data: ShippingData, currency: Currency): (c: Costs)
    ensures c.total == (if data.insurance then 1.2 else 1.0) * (EuroPrice(data.weight) * currency.rate)
    ensures 0.0 < currency.rate ==> (c.total == 0.0 <==> data.weight <= 0.0)
  {
    TotalIsScaledEuroPrice(data.weight, data.insurance, currency);
    CalculateCosts(data.weight, data.insurance, currency)
  }

  /** The euro price, written as one piecewise expression. */
  function EuroPrice(weight: real): (p: real)
    ensures 0.0 <= p
  {
    if weight <= 0.0 then 0.0
    else if weight < 7.0 then 10.0 * weight
    else 8.0 * weight
  }

  /** No positive weight, no cost, with or without insurance. */
  lemma ZeroWeightCostsNothing(weight: real, insured: bool, currency: Currency)
    requires weight <= 0.0
    ensures CalculateCosts(weight, insured, currency) == NoCosts
  {
  }

  /** The tier boundary: 10 per kilogram below 7 kg, 8 from 7 kg on, and
      exactly 7 kg already at 8. */
  lemma TierBoundary(weight: real)
    ensures 0.0 < weight < 7.0 ==> RatePerKg(weight) == 10.0
    ensures 7.0 <= weight ==> RatePerKg(weight) == 8.0
    ensures RatePerKg(7.0) == 8.0
  {
  }

  /** The shipping cost is the piecewise euro price converted from the euro,
      the first table entry, into the display currency. */
  lemma ShippingIsConvertedEuroPrice(weight: real, insured: bool, currency: Currency)
    ensures CalculateCosts(weight, insured, currency).shipping
         == Convert(EuroPrice(weight), Table[0], currency)
  {
    if weight <= 0.0 {
      ConvertFromEuro(0.0, currency);
    }
  }

  /** Insurance is exactly a fifth of the shipping cost when requested and
      nothing otherwise; the total is 1.2 or 1 times the shipping cost. */
  lemma InsuranceIsFifth(weight: real, insured: bool, currency: Currency)
    ensures var c := CalculateCosts(weight, insured, currency);
      c.insurance == (if insured then c.shipping / 5.0 else 0.0) &&
      c.total == (if insured then 1.2 else 1.0) * c.shipping
  {
  }

  /** Pricing in a display currency equals pricing in euros and converting
      every component afterwards: surcharging after the conversion is the
      same as surcharging before it, because conversion is linear. */
  lemma PriceInAnyCurrencyIsConvertedEuroPrice(weight: real, insured: bool, currency: Currency)
    ensures var eur := CalculateCosts(weight, insured, Euro);
      var c := CalculateCosts(weight, insured, currency);
      c.shipping == Convert(eur.shipping, Euro, currency) &&
      c.insurance == Convert(eur.insurance, Euro, currency) &&
      c.total == Convert(eur.total, Euro, currency)
  {
    var eur := CalculateCosts(weight, insured, Euro);
    var c := CalculateCosts(weight, insured, currency);
    ShippingIsConvertedEuroPrice(weight, insured, currency);
    ShippingIsConvertedEuroPrice(weight, insured, Euro);
    ConvertSame(EuroPrice(weight), Euro);
    ConvertScales(InsuranceFraction, eur.shipping, Euro, currency);
    ConvertAdditive(eur.shipping, eur.insurance, Euro, currency);
  }

  /** The price is not monotone in weight: every weight strictly between
      5.6 kg and 7 kg costs more than 7 kg does, in every currency. */
  lemma PriceDropsAtSevenKg(weight: real, insured: bool, currency: Currency)
    requires 5.6 < weight < 7.0 && 0.0 < currency.rate
    ensures CalculateCosts(weight, insured, currency).total
          > CalculateCosts(7.0, insured, currency).total
  {
    var k := if insured then 1.2 else 1.0;
    TotalIsScaledEuroPrice(weight, insured, currency);
    TotalIsScaledEuroPrice(7.0, insured, currency);
    assert EuroPrice(weight) > EuroPrice(7.0);
    ScaleStrictlyMonotone(EuroPrice(weight), EuroPrice(7.0), currency.rate);
    ScaleStrictlyMonotone(EuroPrice(weight) * currency.rate, EuroPrice(7.0) * currency.rate, k);
  }

  /** The total is the euro price in the display currency, times 1.2 when
      insured. */
  lemma TotalIsScaledEuroPrice(weight: real, insured: bool, currency: Currency)
    ensures CalculateCosts(weight, insured, currency).total
         == (if insured then 1.2 else 1.0) * (EuroPrice(weight) * currency.rate)
  {
    ShippingIsConvertedEuroPrice(weight, insured, currency);
    ConvertFromEuro(EuroPrice(weight), currency);
    InsuranceIsFifth(weight, insured, currency);
  }

  lemma ScaleStrictlyMonotone(a: real, b: real, k: real)
    requires a > b && k > 0.0
    ensures a * k > b * k && k * a > k * b
  {
    assert a * k - b * k == (a - b) * k;
  }

  /** 5 kg, no insurance, in euros: 50 + 0 = 50. */
  lemma FiveKgInEuros()
    ensures CalculateCosts(5.0, false, Euro) == Costs(50.0, 0.0, 50.0)
  {
  }

  /** 10 kg, insured, in CFA francs: 80 euros of shipping become 52476.56,
      insurance 10495.312 and the total 62971.872, before display rounding. */
  lemma TenKgInsuredInCfa()
    ensures CalculateCosts(10.0, true, CfaFranc) == Costs(52476.56, 10495.312, 62971.872)
  {
  }

  /** The costs shown for a form depend on nothing but its weight and its
      insurance flag: an update of any other field leaves them unchanged. */
  lemma CostsIgnoreOtherFields(data: ShippingData, u: ShippingPatch, currency: Currency)
    requires !TouchesPricing(u)
    ensures CostsFor(Merge(data, u), currency) == CostsFor(data, currency)
  {
    MergeKeepsPricingInputs(data, u);
  }

  /** The hook's `costs` state and the dependency values
      `[weight, insurance, currency]` its effect last ran with. */
  class CostsHook {
    var costs: Costs
    var deps: Option<(real, bool, Currency)>

    /** After the effect has run, `costs` are those of its dependencies. */
    ghost predicate Valid()
      reads this
    {
      deps.Some? ==> costs == CalculateCosts(deps.value.0, deps.value.1, deps.value.2)
    }

    constructor ()
      ensures Valid() && costs == NoCosts && deps == None
    {
      costs := NoCosts;
      deps := None;
    }

    /** The effect after a render: it recomputes only when one of the three
        dependencies differs from the previous run. */
    method Effect(data: ShippingData, currency: Currency)
      requires Valid()
      modifies this
      ensures Valid()
      ensures deps == Some((data.weight, data.insurance, currency))
      ensures costs == CostsFor(data, currency)
      ensures old(deps) == deps ==> costs == old(costs)
    {
      var key := (data.weight, data.insurance, currency);
      if deps != Some(key) {
        costs := CalculateCosts(data.weight, data.insurance, currency);
        deps := Some(key);
      }
    }
  }
}
