/** The charge-currency rule of the payment button: the processor takes no
    CFA francs, so those amounts are converted back to euros
    (src/components/PayPalButton.tsx). */
module PayPalButton {
  import opened Currencies
  import opened ShippingCalculator

  /** `paypalOptions` handed to the payment SDK. */
  datatype ScriptOptions = ScriptOptions(clientId: string, currency: CurrencyCode, intent: string)

  /** The `amount` of the order's single purchase unit, before `toFixed(2)`. */
  datatype PurchaseAmount = PurchaseAmount(currencyCode: CurrencyCode, value: real)

  /** The SDK is loaded for the currency the order is charged in. */
  function Options(currency: Currency): (o: ScriptOptions)
    ensures o.currency == ChargeCurrency(currency) && o.intent == "capture"
  {
    ScriptOptions("YOUR_PAYPAL_CLIENT_ID", if currency.code == XOF then EUR else currency.code, "capture")
  }

  /** `paypalCurrency`: never the CFA franc; the display currency itself
      whenever that is not the CFA franc, the euro otherwise. */
  function ChargeCurrency(currency: Currency): (c: CurrencyCode)
    ensures c != XOF
    ensures currency.code != XOF ==> c == currency.code
    ensures currency.code == XOF ==> c == EUR
  {
    if currency.code == XOF then EUR else currency.code
  }

  /** `paypalAmount` before rounding to two decimals: a CFA amount is
      converted to euros, any other amount passes unchanged. */
  function ChargeAmount(amount: real, currency: Currency): (r: real)
    requires currency.code == XOF ==> currency.rate != 0.0
    ensures currency.code == XOF && currency.rate > 0.0 ==> r == Convert(amount, currency, Euro)
    ensures currency.code != XOF ==> r == amount
  {
    if currency.code == XOF then amount / currency.rate else amount
  }

  /** The order's purchase unit for a total in the display currency. */
  function PurchaseUnit(amount: real, currency: Currency): (p: PurchaseAmount)
    requires currency.code == XOF ==> currency.rate != 0.0
    ensures p.currencyCode != XOF
    ensures p.currencyCode == Options(currency).currency
    ensures currency.code != XOF ==> p == PurchaseAmount(currency.code, amount)
  {
    PurchaseAmount(ChargeCurrency(currency), ChargeAmount(amount, currency))
  }

  /** The SDK is loaded for the currency the order is placed in, and that is
      never the CFA franc. */
  lemma ChargeCurrencyAgrees(currency: Currency)
    ensures Options(currency).currency == ChargeCurrency(currency)
    ensures ChargeCurrency(currency) != XOF
    ensures currency.code == XOF <==> ChargeCurrency(currency) != currency.code
  {
  }

  /** A CFA franc amount is charged as its euro conversion. */
  lemma CfaChargedAsEuroConversion(amount: real, currency: Currency)
    requires currency.code == XOF && currency.rate > 0.0
    ensures PurchaseUnit(amount, currency) == PurchaseAmount(EUR, Convert(amount, currency, Euro))
  {
  }

  /** A quote shown in CFA francs is charged exactly the euro quote for the
      same parcel; a quote in any other table currency is charged as shown. */
  lemma QuoteChargeMatchesEuroQuote(weight: real, insured: bool, currency: Currency)
    requires currency in Table
    ensures var total := CalculateCosts(weight, insured, currency).total;
      PurchaseUnit(total, currency)
        == if currency.code == XOF
           then PurchaseAmount(EUR, CalculateCosts(weight, insured, Euro).total)
           else PurchaseAmount(currency.code, total)
  {
    TableWellFormed();
    if currency.code == XOF {
      var eur := CalculateCosts(weight, insured, Euro).total;
      PriceInAnyCurrencyIsConvertedEuroPrice(weight, insured, currency);
      RoundTrip(eur, currency);
    }
  }
}
