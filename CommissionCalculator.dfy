/** The commission calculator widget: a sale amount becomes a 5% total
    commission and one share per role, scaled from the rate table. */
module CommissionCalculator {
  import opened Json
  import opened Constants

  /** The rate every share is scaled against, and the total rate charged. */
  const BaseRate: real := 0.05

  datatype Share = Share(role: string, rate: real, amount: real, percentage: real)

  /** What the widget hands to `onCalculate`. */
  datatype Calculation = Calculation(saleAmount: real, totalCommission: real, distributions: seq<Share>)

  /** The widget's state: the two form inputs as typed, and the last breakdown shown. */
  datatype CalculatorState = CalculatorState(saleAmount: string, propertyType: string, distribution: seq<Share>)

  /** The share of one role: `rate / 0.05` of the total commission. */
  function ShareOf(role: string, rate: real, total: real): (s: Share)
    ensures s.role == role && s.rate == rate
    ensures s.amount * BaseRate == total * rate
    ensures s.percentage * BaseRate == rate * 100.0
  {
    Share(role, rate, total * (rate / BaseRate), (rate / BaseRate) * 100.0)
  }

  /** `calculateCommission` once its guard has passed. `amount` is
      `parseFloat(saleAmount)`; the property type takes no part. */
  function Calculate(amount: real, rates: CommissionRates): (c: Calculation)
    ensures c.saleAmount == amount && c.totalCommission == amount * BaseRate
    ensures |c.distributions| == 2
    ensures c.distributions[0] == ShareOf("member", rates.member, c.totalCommission)
    ensures c.distributions[1] == ShareOf("sub-member", rates.subMember, c.totalCommission)
  {
    var total := amount * BaseRate;
    Calculation(amount, total, [ShareOf("member", rates.member, total), ShareOf("sub-member", rates.subMember, total)])
  }

  /** The effect that runs when an input changes: nothing happens unless both the
      sale amount and the property type are non-empty; otherwise the breakdown
      is recomputed, stored, and passed to the callback. */
  function Recalculate(st: CalculatorState, amount: real): (r: (CalculatorState, Option<Calculation>))
    ensures st.saleAmount == "" || st.propertyType == "" ==> r == (st, None)
    ensures st.saleAmount != "" && st.propertyType != "" ==>
              && r.1 == Some(Calculate(amount, Rates))
              && r.0 == st.(distribution := r.1.value.distributions)
  {
    if st.saleAmount == "" || st.propertyType == "" then (st, None)
    else
      var c := Calculate(amount, Rates);
      (st.(distribution := c.distributions), Some(c))
  }

  /** `distribution.reduce((sum, d) => sum + d.amount, 0)`: the displayed total. */
  function SumAmounts(ds: seq<Share>): real {
    if ds == [] then 0.0 else SumAmounts(ds[..|ds| - 1]) + ds[|ds| - 1].amount
  }

  function SumPercentages(ds: seq<Share>): real {
    if ds == [] then 0.0 else SumPercentages(ds[..|ds| - 1]) + ds[|ds| - 1].percentage
  }

  lemma SumsOfPair(ds: seq<Share>)
    requires |ds| == 2
    ensures SumAmounts(ds) == ds[0].amount + ds[1].amount
    ensures SumPercentages(ds) == ds[0].percentage + ds[1].percentage
  {
    var one := ds[..1];
    assert ds[..|ds| - 1] == one && one[..|one| - 1] == [];
    assert SumAmounts(one) == ds[0].amount && SumPercentages(one) == ds[0].percentage;
  }

  /** The shares add up to the total commission, and their percentages to 100,
      exactly when the member and sub-member rates add up to the 5% base. */
  lemma SharesSumToTotalIff(amount: real, rates: CommissionRates)
    requires amount != 0.0
    ensures var c := Calculate(amount, rates);
            (SumAmounts(c.distributions) == c.totalCommission <==> rates.member + rates.subMember == BaseRate)
            && (SumPercentages(c.distributions) == 100.0 <==> rates.member + rates.subMember == BaseRate)
  {
    var c := Calculate(amount, rates);
    var ds := c.distributions;
    SumsOfPair(ds);
    assert (ds[0].amount + ds[1].amount) * BaseRate == c.totalCommission * (rates.member + rates.subMember);
    assert c.totalCommission != 0.0;
  }

  /** With the shipped rates (member 0.10, sub-member 0.05) the widget shows 200%
      and 100%, and its displayed total is three times the 5% commission. */
  lemma ShippedRatesOverAllocate(amount: real)
    ensures var c := Calculate(amount, Rates);
            && c.distributions[0].percentage == 200.0
            && c.distributions[1].percentage == 100.0
            && SumAmounts(c.distributions) == 3.0 * c.totalCommission
  {
    SumsOfPair(Calculate(amount, Rates).distributions);
  }

  /** The property type only gates the calculation: any two non-empty types give
      the same numbers. */
  lemma PropertyTypeIrrelevant(st: CalculatorState, other: string, amount: real)
    requires st.propertyType != "" && other != ""
    ensures Recalculate(st.(propertyType := other), amount).1 == Recalculate(st, amount).1
    ensures Recalculate(st.(propertyType := other), amount).0.distribution == Recalculate(st, amount).0.distribution
  {
  }
}
