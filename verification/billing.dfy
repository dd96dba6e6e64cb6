/** The amount calculator: the three installment amounts of an order,
    from its payment plan and currency. */
module Billing {
  import opened Js
  import opened Order

  /** Francs congolais per US dollar (the configured `CDF_RATE`). */
  const CdfRate: nat := 2350

  /** The two installment cadences. */
  datatype Plan = FourWeeks | ThreeMonths

  /** Only the exact string "4weeks" selects the four-week plan; every
      other value, absent included, falls into the three-month branch. */
  function PlanOf(paymentPlan: Field): (p: Plan)
    ensures p == FourWeeks <==> paymentPlan == Some("4weeks")
  {
    if paymentPlan == Some("4weeks") then FourWeeks else ThreeMonths
  }

  /** Conversion factor applied to every USD base amount. */
  function Rate(currency: Field): (r: nat)
    ensures r == CdfRate <==> currency == Some("cdf")
    ensures r == 1 <==> currency != Some("cdf")
  {
    if currency == Some("cdf") then CdfRate else 1
  }

  /** One billed installment as the pro-forma schedule announces it: its
      price in USD and the day, counted from the order, on which it is due. */
  datatype Installment = Installment(usd: nat, dueDay: nat)

  /** The published schedule of each plan. The three-month plan also shows
      a free day-30 milestone, which is not billed and not listed here. */
  function Schedule(p: Plan): (s: seq<Installment>)
    ensures |s| == 3
    ensures s[0].dueDay == 0 < s[1].dueDay < s[2].dueDay
  {
    match p
    case FourWeeks =>
      [Installment(200, 0), Installment(200, 14), Installment(200, 28)]
    case ThreeMonths =>
      [Installment(200, 0), Installment(235, 60), Installment(235, 90)]
  }

  /** `calculateAmounts(data)`: always three amounts, each the scheduled USD
      price scaled by the currency's rate. */
  function CalculateAmounts(data: Submission): (r: seq<int>)
    ensures |r| == 3
    ensures forall k :: 0 <= k < 3 ==> r[k] >= 0
    ensures forall k :: 0 <= k < 3 ==>
      r[k] == Schedule(PlanOf(data.paymentPlan))[k].usd * Rate(data.currency)
  {
    var rate := if data.currency == Some("cdf") then CdfRate else 1;
    if data.paymentPlan == Some("4weeks") then
      [200 * rate, 200 * rate, 200 * rate]
    else
      [200 * rate, 235 * rate, 235 * rate]
  }

  /** Sum of a list of amounts. */
  function Total(amounts: seq<int>): int {
    if amounts == [] then 0 else amounts[0] + Total(amounts[1..])
  }

  /** Amounts read only the plan and the currency of a submission. */
  lemma AmountsDependOnPlanAndCurrency(d1: Submission, d2: Submission)
    requires PlanOf(d1.paymentPlan) == PlanOf(d2.paymentPlan)
    requires Rate(d1.currency) == Rate(d2.currency)
    ensures CalculateAmounts(d1) == CalculateAmounts(d2)
  {
  }

  /** Every CDF amount is the USD amount of the same installment times the rate. */
  lemma CdfIsUsdTimesRate(data: Submission)
    ensures forall k :: 0 <= k < 3 ==>
      CalculateAmounts(data.(currency := Some("cdf")))[k]
        == CdfRate * CalculateAmounts(data.(currency := Some("usd")))[k]
  {
  }

  /** The currency comparison is case-sensitive: "CDF" is charged in dollars. */
  lemma UpperCaseCdfIsDollars(data: Submission)
    ensures CalculateAmounts(data.(currency := Some("CDF")))
         == CalculateAmounts(data.(currency := Some("usd")))
  {
  }

  /** A plan string other than "4weeks" is billed as the three-month plan. */
  lemma UnknownPlanIsThreeMonths(data: Submission)
    requires data.paymentPlan != Some("4weeks")
    ensures CalculateAmounts(data) == CalculateAmounts(data.(paymentPlan := Some("3months")))
  {
  }

  /** What an order costs in all: 600 or 670 dollars, scaled by the rate. */
  lemma OrderTotal(data: Submission)
    ensures Total(CalculateAmounts(data))
         == (if PlanOf(data.paymentPlan) == FourWeeks then 600 else 670) * Rate(data.currency)
  {
    var a := CalculateAmounts(data);
    var t1, t2 := a[1..], a[1..][1..];
    assert Total(t2) == a[2] by {
      assert t2[1..] == [];
    }
    assert Total(t1) == a[1] + a[2];
  }

  /** The worked amounts of each plan and currency. */
  lemma SampleAmounts(data: Submission)
    ensures data.paymentPlan == Some("4weeks") && data.currency == Some("usd")
      ==> CalculateAmounts(data) == [200, 200, 200]
    ensures data.paymentPlan == Some("4weeks") && data.currency == Some("cdf")
      ==> CalculateAmounts(data) == [470000, 470000, 470000]
    ensures data.paymentPlan == Some("3months") && data.currency == Some("usd")
      ==> CalculateAmounts(data) == [200, 235, 235]
    ensures data.paymentPlan == Some("3months") && data.currency == Some("cdf")
      ==> CalculateAmounts(data) == [470000, 552250, 552250]
  {
  }
}
