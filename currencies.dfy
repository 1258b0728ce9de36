/** The fixed currency table and the conversion that routes every amount
    through the euro (src/utils/currencies.ts). */
module Currencies {

  datatype CurrencyCode = EUR | XOF | CNY

  /** `rate` is the number of units of this currency worth one euro. */
  datatype Currency = Currency(code: CurrencyCode, symbol: string, name: string, rate: real)

  const Euro := Currency(EUR, "€", "Euro", 1.0)
  const CfaFranc := Currency(XOF, "CFA", "West African CFA Franc", 655.957)
  const Yuan := Currency(CNY, "¥", "Chinese Yuan", 7.85)

  /** `currencies`; entry 0 is the euro, the source of every price. */
  const Table: seq<Currency> := [Euro, CfaFranc, Yuan]

  /** The table's invariants: the euro first with rate 1, every rate
      positive, and no code listed twice. */
  lemma TableWellFormed()
    ensures Table[0] == Euro && Table[0].code == EUR && Table[0].rate == 1.0
    ensures forall c :: c in Table ==> c.rate > 0.0
    ensures forall i, j :: 0 <= i < j < |Table| ==> Table[i].code != Table[j].code
  {
  }

  /** `convertCurrency(amount, from, to)`: divide by the source rate to reach
      euros, then multiply by the target rate. The result is worth as many
      euros as `amount` is. */
  function Convert(amount: real, from: Currency, to: Currency): (r: real)
    requires from.rate > 0.0
    ensures r * from.rate == amount * to.rate
    ensures to.rate > 0.0 ==> r / to.rate == amount / from.rate
    ensures 0.0 <= amount && 0.0 <= to.rate ==> 0.0 <= r
    ensures 0.0 < amount && 0.0 < to.rate ==> 0.0 < r
  {
    var eurAmount := amount / from.rate;
    eurAmount * to.rate
  }

  /** Converting into the currency one starts from changes nothing. */
  lemma ConvertSame(amount: real, c: Currency)
    requires c.rate > 0.0
    ensures Convert(amount, c, c) == amount
  {
  }

  /** From the euro, conversion is a multiplication by the target rate. */
  lemma ConvertFromEuro(amount: real, to: Currency)
    ensures Convert(amount, Euro, to) == amount * to.rate
  {
  }

  /** Out to any currency and back to the euro gives the amount back. */
  lemma RoundTrip(amount: real, c: Currency)
    requires c.rate > 0.0
    ensures Convert(Convert(amount, Euro, c), c, Euro) == amount
  {
  }

  /** Going A to B to C is going A to C directly. */
  lemma ConvertChain(amount: real, a: Currency, b: Currency, c: Currency)
    requires a.rate > 0.0 && b.rate > 0.0
    ensures Convert(Convert(amount, a, b), b, c) == Convert(amount, a, c)
  {
    var mid := Convert(amount, a, b);
    assert mid / b.rate == amount / a.rate;
  }

  /** Every conversion equals the two-step conversion through the euro. */
  lemma ConvertViaEuro(amount: real, a: Currency, b: Currency)
    requires a.rate > 0.0
    ensures Convert(amount, a, b) == Convert(Convert(amount, a, Euro), Euro, b)
  {
    ConvertChain(amount, a, Euro, b);
  }

  /** Conversion preserves sums. */
  lemma ConvertAdditive(x: real, y: real, a: Currency, b: Currency)
    requires a.rate > 0.0
    ensures Convert(x + y, a, b) == Convert(x, a, b) + Convert(y, a, b)
  {
    assert (x + y) / a.rate == x / a.rate + y / a.rate;
  }

  /** Conversion preserves scalar multiples. */
  lemma ConvertScales(k: real, x: real, a: Currency, b: Currency)
    requires a.rate > 0.0
    ensures Convert(k * x, a, b) == k * Convert(x, a, b)
  {
    assert (k * x) / a.rate == k * (x / a.rate);
  }
}
