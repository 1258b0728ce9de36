/** The financial page's metrics: filtered sums over the records and the
    figures derived from them (src/components/admin/FinancialTracking.tsx). */
module FinancialTracking {
  import opened Seqs
  import opened AdminTypes

  /** `records.reduce((sum, r) => sum + r.amount, 0)`, left to right. */
  function SumAmounts(records: seq<FinancialRecord>): real {
    if records == [] then 0.0
    else SumAmounts(records[..|records| - 1]) + records[|records| - 1].amount
  }

  predicate IsCompletedRevenue(r: FinancialRecord) {
    r.recordType == Revenue && r.paymentStatus == Completed
  }

  predicate IsCost(r: FinancialRecord) {
    r.recordType == Cost
  }

  predicate IsRefund(r: FinancialRecord) {
    r.recordType == Refund
  }

  /** `totalRevenue`: completed revenue only, so records that are not
      completed revenue add nothing. */
  function TotalRevenue(records: seq<FinancialRecord>): (t: real)
    ensures (forall r :: r in records ==> !IsCompletedRevenue(r)) ==> t == 0.0
    ensures (forall r :: r in records ==> r.amount >= 0.0) ==> t >= 0.0
  {
    FilteredSumFacts(records, IsCompletedRevenue);
    SumAmounts(Filter(records, IsCompletedRevenue))
  }

  /** `totalCosts`: every cost record, whatever its payment status. */
  function TotalCosts(records: seq<FinancialRecord>): (t: real)
    ensures (forall r :: r in records ==> !IsCost(r)) ==> t == 0.0
    ensures (forall r :: r in records ==> r.amount >= 0.0) ==> t >= 0.0
  {
    FilteredSumFacts(records, IsCost);
    SumAmounts(Filter(records, IsCost))
  }

  /** `totalRefunds`: every refund record, whatever its payment status. */
  function TotalRefunds(records: seq<FinancialRecord>): (t: real)
    ensures (forall r :: r in records ==> !IsRefund(r)) ==> t == 0.0
    ensures (forall r :: r in records ==> r.amount >= 0.0) ==> t >= 0.0
  {
    FilteredSumFacts(records, IsRefund);
    SumAmounts(Filter(records, IsRefund))
  }

  /** A filtered sum is zero when nothing passes the filter, and never
      negative when no amount is. */
  lemma FilteredSumFacts(records: seq<FinancialRecord>, p: FinancialRecord -> bool)
    ensures (forall r :: r in records ==> !p(r)) ==> SumAmounts(Filter(records, p)) == 0.0
    ensures (forall r :: r in records ==> r.amount >= 0.0) ==> SumAmounts(Filter(records, p)) >= 0.0
  {
    if forall r :: r in records ==> !p(r) {
      FilterKeepsNone(records, p);
    }
    if forall r :: r in records ==> r.amount >= 0.0 {
      SumNonNegative(Filter(records, p));
    }
  }

  /** `netProfit`. */
  function NetProfit(records: seq<FinancialRecord>): (p: real)
    ensures p + TotalCosts(records) + TotalRefunds(records) == TotalRevenue(records)
  {
    TotalRevenue(records) - TotalCosts(records) - TotalRefunds(records)
  }

  /** `profitMargin`, in percent; 0 when there is no positive revenue. */
  function ProfitMargin(records: seq<FinancialRecord>): (m: real)
    ensures TotalRevenue(records) > 0.0 ==> m * TotalRevenue(records) == 100.0 * NetProfit(records)
    ensures TotalRevenue(records) <= 0.0 ==> m == 0.0
  {
    var revenue := TotalRevenue(records);
    if revenue > 0.0 then NetProfit(records) / revenue * 100.0 else 0.0
  }

  datatype ServiceShare = ServiceShare(name: string, value: real, color: string)

  /** `revenueByService`: fixed 30/50/20 shares of the revenue. */
  function RevenueByService(records: seq<FinancialRecord>): (shares: seq<ServiceShare>)
    ensures |shares| == 3
    ensures shares[0].value + shares[1].value + shares[2].value == TotalRevenue(records)
  {
    var revenue := TotalRevenue(records);
    [ ServiceShare("Mail", revenue * 0.3, "#8B5CF6"),
      ServiceShare("Parcel", revenue * 0.5, "#10B981"),
      ServiceShare("Container", revenue * 0.2, "#F59E0B") ]
  }

  /** Sums over a concatenation add up. */
  lemma {:induction false} SumAppend(a: seq<FinancialRecord>, b: seq<FinancialRecord>)
    ensures SumAmounts(a + b) == SumAmounts(a) + SumAmounts(b)
  {
    if b != [] {
      var ab := a + b;
      assert ab[..|ab| - 1] == a + b[..|b| - 1];
      assert ab[|ab| - 1] == b[|b| - 1];
      SumAppend(a, b[..|b| - 1]);
    } else {
      assert a + b == a;
    }
  }

  /** With no records every figure is zero. */
  lemma NoRecordsNoMoney()
    ensures TotalRevenue([]) == 0.0 && TotalCosts([]) == 0.0 && TotalRefunds([]) == 0.0
    ensures NetProfit([]) == 0.0 && ProfitMargin([]) == 0.0
  {
  }

  /** Every total splits over two batches of records. */
  lemma TotalsAdditive(a: seq<FinancialRecord>, b: seq<FinancialRecord>)
    ensures TotalRevenue(a + b) == TotalRevenue(a) + TotalRevenue(b)
    ensures TotalCosts(a + b) == TotalCosts(a) + TotalCosts(b)
    ensures TotalRefunds(a + b) == TotalRefunds(a) + TotalRefunds(b)
  {
    FilterAppend(a, b, IsCompletedRevenue);
    SumAppend(Filter(a, IsCompletedRevenue), Filter(b, IsCompletedRevenue));
    FilterAppend(a, b, IsCost);
    SumAppend(Filter(a, IsCost), Filter(b, IsCost));
    FilterAppend(a, b, IsRefund);
    SumAppend(Filter(a, IsRefund), Filter(b, IsRefund));
  }

  /** One more record moves exactly the total its kind belongs to: a
      revenue record counts only once completed, while costs and refunds
      count whatever their payment status. */
  lemma OneMoreRecord(records: seq<FinancialRecord>, r: FinancialRecord)
    ensures TotalRevenue(records + [r]) == TotalRevenue(records) + (if IsCompletedRevenue(r) then r.amount else 0.0)
    ensures TotalCosts(records + [r]) == TotalCosts(records) + (if IsCost(r) then r.amount else 0.0)
    ensures TotalRefunds(records + [r]) == TotalRefunds(records) + (if IsRefund(r) then r.amount else 0.0)
  {
    TotalsAdditive(records, [r]);
    assert SumAmounts([r]) == r.amount by {
      assert [r][..0] == [];
    }
  }

  /** Non-negative amounts give non-negative sums. */
  lemma {:induction false} SumNonNegative(records: seq<FinancialRecord>)
    requires forall r :: r in records ==> r.amount >= 0.0
    ensures SumAmounts(records) >= 0.0
  {
    if records != [] {
      assert records[|records| - 1] in records;
      assert forall r :: r in records[..|records| - 1] ==> r in records;
      SumNonNegative(records[..|records| - 1]);
    }
  }

  /** With non-negative amounts the margin never exceeds 100%. */
  lemma MarginAtMostHundred(records: seq<FinancialRecord>)
    requires forall r :: r in records ==> r.amount >= 0.0
    ensures ProfitMargin(records) <= 100.0
  {
    var revenue := TotalRevenue(records);
    if revenue > 0.0 {
      assert NetProfit(records) <= revenue;
      assert ProfitMargin(records) == NetProfit(records) / revenue * 100.0;
      ShareAtMostHundred(NetProfit(records), revenue);
    }
  }

  /** A part no larger than a positive whole is at most 100% of it. */
  lemma ShareAtMostHundred(part: real, whole: real)
    requires part <= whole && whole > 0.0
    ensures part / whole * 100.0 <= 100.0
  {
    assert part / whole <= whole / whole;
  }
}
