/** The investment simulator: an initial amount plus a monthly contribution,
    compounded monthly at the risk profile's expected return over a horizon
    given in years. */
module InvestmentSimulator {
  import JsMath
  import opened JsNumber

  /** The profiles "conservador", "moderado" and "arrojado". */
  datatype RiskProfile = Conservative | Moderate | Aggressive

  /** The advice messages: low-risk instruments for a short horizon, more
      equity for a long one, diversification for the conservative profile. */
  datatype InvestmentAdvice = PreferLowRisk | IncreaseEquity | Diversify

  datatype InvestmentReport = InvestmentReport(
    riskProfile: RiskProfile,
    timeHorizon: real,
    totalInvested: real,
    projectedValue: int,
    totalReturn: int,
    returnPercentage: Number,
    monthlyReturn: real,
    recommendations: seq<InvestmentAdvice>)

  /** The expected annual return of each profile (the table's volatility
      column is never read). */
  function ExpectedReturn(p: RiskProfile): real
  {
    match p
    case Conservative => 0.08
    case Moderate => 0.12
    case Aggressive => 0.15
  }

  /** The monthly rate: a twelfth of the expected annual return. */
  function MonthlyRate(p: RiskProfile): (r: real)
    ensures 0.0 < r < 0.02
    ensures r * 12.0 == ExpectedReturn(p)
  {
    ExpectedReturn(p) / 12.0
  }

  /** How many times `for (let i = 0; i < months; i++)` runs its body: the
      least whole number not below `months` (0 when `months` is not
      positive), so a fractional month count runs one more pass. */
  function LoopCount(months: real): (n: nat)
    ensures months <= n as real
    ensures n > 0 ==> (n - 1) as real < months
  {
    if months <= 0.0 then 0 else -((-months).Floor)
  }

  /** A whole number of years gives exactly twelve passes per year. */
  lemma WholeYears(years: nat)
    ensures LoopCount(years as real * 12.0) == 12 * years
  {
  }

  /** The balance after `n` passes of
      `total = total * (1 + rate) + contribution`. */
  function Compound(initial: real, rate: real, contribution: real, n: nat): real
  {
    if n == 0 then initial
    else Compound(initial, rate, contribution, n - 1) * (1.0 + rate) + contribution
  }

  function Pow(x: real, n: nat): real
  {
    if n == 0 then 1.0 else Pow(x, n - 1) * x
  }

  /** The simulation loop as written: one pass per month while the counter
      is below `months`. */
  method ProjectBalance(initial: real, contribution: real, rate: real, months: real)
    returns (total: real)
    ensures total == Compound(initial, rate, contribution, LoopCount(months))
  {
    total := initial;
    var i: nat := 0;
    while (i as real) < months
      invariant i <= LoopCount(months)
      invariant total == Compound(initial, rate, contribution, i)
      decreases LoopCount(months) - i
    {
      total := total * (1.0 + rate) + contribution;
      i := i + 1;
    }
  }

  /** The recurrence agrees with the annuity formula:
      `total * r == (initial * r + c) * (1 + r)^n - c`. */
  lemma {:induction false} CompoundClosedForm(initial: real, rate: real, contribution: real, n: nat)
    ensures Compound(initial, rate, contribution, n) * rate
         == (initial * rate + contribution) * Pow(1.0 + rate, n) - contribution
    decreases n
  {
    if n > 0 {
      CompoundClosedForm(initial, rate, contribution, n - 1);
      ClosedFormStep(Compound(initial, rate, contribution, n - 1), Compound(initial, rate, contribution, n),
                     rate, contribution, initial * rate + contribution,
                     Pow(1.0 + rate, n - 1), Pow(1.0 + rate, n));
    }
  }

  /** The algebra of one step of `CompoundClosedForm`. */
  lemma ClosedFormStep(prev: real, next: real, rate: real, contribution: real, a: real, p: real, p': real)
    requires next == prev * (1.0 + rate) + contribution && p' == p * (1.0 + rate)
    requires prev * rate == a * p - contribution
    ensures next * rate == a * p' - contribution
  {
    assert (prev * (1.0 + rate)) * rate == (prev * rate) * (1.0 + rate);
    assert (a * p - contribution) * (1.0 + rate) == a * (p * (1.0 + rate)) - contribution * (1.0 + rate);
  }

  /** With nothing negative involved, the balance never falls below what
      was paid in. */
  lemma {:induction false} CompoundCoversDeposits(initial: real, rate: real, contribution: real, n: nat)
    requires initial >= 0.0 && contribution >= 0.0 && rate >= 0.0
    ensures Compound(initial, rate, contribution, n) >= initial + contribution * n as real
    decreases n
  {
    if n > 0 {
      CompoundCoversDeposits(initial, rate, contribution, n - 1);
      var prev := Compound(initial, rate, contribution, n - 1);
      assert prev >= 0.0;
      assert prev * rate >= 0.0;
      assert prev * (1.0 + rate) >= prev;
    }
  }

  /** `generateInvestmentRecommendations`: at most one horizon message (the
      two horizon tests are an `if / else if`), then the diversification
      message for the conservative profile. */
  function InvestmentRecommendations(profile: RiskProfile, timeHorizon: real): (r: seq<InvestmentAdvice>)
    ensures PreferLowRisk in r <==> timeHorizon < 2.0
    ensures IncreaseEquity in r <==> timeHorizon > 10.0
    ensures !(PreferLowRisk in r && IncreaseEquity in r)
    ensures Diversify in r <==> profile == Conservative
    ensures profile == Conservative ==> r[|r| - 1] == Diversify
    ensures |r| == (if timeHorizon < 2.0 || timeHorizon > 10.0 then 1 else 0)
                 + (if profile == Conservative then 1 else 0)
  {
    (if timeHorizon < 2.0 then [PreferLowRisk]
     else if timeHorizon > 10.0 then [IncreaseEquity]
     else [])
    + (if profile == Conservative then [Diversify] else [])
  }

  /** The balance the loop leaves: one compounding step per started month
      of the horizon. */
  function Projection(initialAmount: real, monthlyContribution: real, timeHorizon: real, profile: RiskProfile): real
  {
    Compound(initialAmount, MonthlyRate(profile), monthlyContribution, LoopCount(timeHorizon * 12.0))
  }

  /** `Math.round(p * 100) / 100` on a JavaScript number: finite values go
      to two decimals, the infinities and NaN pass through. */
  function PercentToCents(n: Number): (r: Number)
    ensures r.Finite? <==> n.Finite?
    ensures n.Finite? ==> r.value == JsMath.RoundToCents(n.value)
    ensures !n.Finite? ==> r == n
  {
    if n.Finite? then Finite(JsMath.RoundToCents(n.value)) else n
  }

  /** `(totalReturn / totalInvested) * 100`, scaled before the division:
      multiplying the quotient by 100 keeps infinities and NaN as they are. */
  function ReturnPercentage(gain: real, invested: real): Number
  {
    match Divide(gain, invested)
    case Finite(q) => Finite(q * 100.0)
    case other => other
  }

  /** The `execute` body of the investment simulator. The reported balance
      and return are rounded to whole units, the percentages to cents. */
  function SimulateInvestment(
    initialAmount: real, monthlyContribution: real, timeHorizon: real, profile: RiskProfile): (r: InvestmentReport)
    ensures r.riskProfile == profile && r.timeHorizon == timeHorizon
    ensures r.totalInvested == initialAmount + monthlyContribution * (timeHorizon * 12.0)
    ensures r.projectedValue == JsMath.Round(Projection(initialAmount, monthlyContribution, timeHorizon, profile))
    ensures r.totalReturn
         == JsMath.Round(Projection(initialAmount, monthlyContribution, timeHorizon, profile) - r.totalInvested)
    ensures timeHorizon <= 0.0 ==> r.projectedValue == JsMath.Round(initialAmount)
    ensures r.returnPercentage.Finite? <==> r.totalInvested != 0.0
    ensures r.returnPercentage.Finite? ==>
      r.returnPercentage.value
        == JsMath.RoundToCents(
             (Projection(initialAmount, monthlyContribution, timeHorizon, profile) - r.totalInvested)
             / r.totalInvested * 100.0)
    ensures r.returnPercentage == PlusInfinity <==>
      r.totalInvested == 0.0 && Projection(initialAmount, monthlyContribution, timeHorizon, profile) > 0.0
    ensures r.returnPercentage == MinusInfinity <==>
      r.totalInvested == 0.0 && Projection(initialAmount, monthlyContribution, timeHorizon, profile) < 0.0
    ensures r.returnPercentage == NaN <==>
      r.totalInvested == 0.0 && Projection(initialAmount, monthlyContribution, timeHorizon, profile) == 0.0
    ensures r.monthlyReturn == JsMath.RoundToCents(MonthlyRate(profile) * 100.0)
    ensures r.recommendations == InvestmentRecommendations(profile, timeHorizon)
  {
    var months := timeHorizon * 12.0;
    var rate := MonthlyRate(profile);
    var total := Compound(initialAmount, rate, monthlyContribution, LoopCount(months));
    var invested := initialAmount + monthlyContribution * months;
    var gain := total - invested;
    InvestmentReport(
      profile, timeHorizon, invested,
      JsMath.Round(total), JsMath.Round(gain),
      PercentToCents(ReturnPercentage(gain, invested)),
      JsMath.RoundToCents(rate * 100.0),
      InvestmentRecommendations(profile, timeHorizon))
  }

  /** With a non-negative initial amount and contribution the reported
      return is never negative, whatever the horizon. */
  lemma NonNegativeReturn(initialAmount: real, monthlyContribution: real, timeHorizon: real, profile: RiskProfile)
    requires initialAmount >= 0.0 && monthlyContribution >= 0.0
    ensures SimulateInvestment(initialAmount, monthlyContribution, timeHorizon, profile).totalReturn >= 0
  {
    var months := timeHorizon * 12.0;
    var gain := Compound(initialAmount, MonthlyRate(profile), monthlyContribution, LoopCount(months))
                - (initialAmount + monthlyContribution * months);
    GainNonNegative(initialAmount, monthlyContribution, months, MonthlyRate(profile));
    assert SimulateInvestment(initialAmount, monthlyContribution, timeHorizon, profile).totalReturn == JsMath.Round(gain);
  }

  /** The balance after the loop covers the deposits the report counts. */
  lemma GainNonNegative(initialAmount: real, monthlyContribution: real, months: real, rate: real)
    requires initialAmount >= 0.0 && monthlyContribution >= 0.0 && rate >= 0.0
    ensures Compound(initialAmount, rate, monthlyContribution, LoopCount(months))
         >= initialAmount + monthlyContribution * months
  {
    var n := LoopCount(months);
    CompoundCoversDeposits(initialAmount, rate, monthlyContribution, n);
    ScaleMonotone(monthlyContribution, months, n as real);
  }

  lemma ScaleMonotone(c: real, x: real, y: real)
    requires c >= 0.0 && x <= y
    ensures c * x <= c * y
  {
    assert c * y - c * x == c * (y - x);
  }

  /** Over a whole number of years the balance is the recurrence run twelve
      times per year; over no time at all it is the initial amount. */
  lemma WholeYearsProjection(initialAmount: real, monthlyContribution: real, years: nat, profile: RiskProfile)
    ensures SimulateInvestment(initialAmount, monthlyContribution, years as real, profile).projectedValue
         == JsMath.Round(Compound(initialAmount, MonthlyRate(profile), monthlyContribution, 12 * years))
    ensures years == 0 ==>
      SimulateInvestment(initialAmount, monthlyContribution, years as real, profile).projectedValue
        == JsMath.Round(initialAmount)
  {
    WholeYears(years);
  }

  /** One year of the conservative profile from 1000 with 100 a month:
      twelve passes at 0.08 / 12 give a projected value of 2328. */
  lemma OneYearConservative()
    ensures SimulateInvestment(1000.0, 100.0, 1.0, Conservative).projectedValue == 2328
  {
    WholeYears(1);
    var rate := MonthlyRate(Conservative);
    assert rate == 1.0 / 150.0;
    assert Compound(1000.0, rate, 100.0, 1) == Compound(1000.0, rate, 100.0, 0) * (1.0 + rate) + 100.0;
    assert Compound(1000.0, rate, 100.0, 2) == Compound(1000.0, rate, 100.0, 1) * (1.0 + rate) + 100.0;
    assert Compound(1000.0, rate, 100.0, 3) == Compound(1000.0, rate, 100.0, 2) * (1.0 + rate) + 100.0;
    assert Compound(1000.0, rate, 100.0, 4) == Compound(1000.0, rate, 100.0, 3) * (1.0 + rate) + 100.0;
    assert Compound(1000.0, rate, 100.0, 5) == Compound(1000.0, rate, 100.0, 4) * (1.0 + rate) + 100.0;
    assert Compound(1000.0, rate, 100.0, 6) == Compound(1000.0, rate, 100.0, 5) * (1.0 + rate) + 100.0;
    assert Compound(1000.0, rate, 100.0, 7) == Compound(1000.0, rate, 100.0, 6) * (1.0 + rate) + 100.0;
    assert Compound(1000.0, rate, 100.0, 8) == Compound(1000.0, rate, 100.0, 7) * (1.0 + rate) + 100.0;
    assert Compound(1000.0, rate, 100.0, 9) == Compound(1000.0, rate, 100.0, 8) * (1.0 + rate) + 100.0;
    assert Compound(1000.0, rate, 100.0, 10) == Compound(1000.0, rate, 100.0, 9) * (1.0 + rate) + 100.0;
    assert Compound(1000.0, rate, 100.0, 11) == Compound(1000.0, rate, 100.0, 10) * (1.0 + rate) + 100.0;
    assert Compound(1000.0, rate, 100.0, 12) == Compound(1000.0, rate, 100.0, 11) * (1.0 + rate) + 100.0;
    assert 2327.5 < Compound(1000.0, rate, 100.0, 12) < 2328.5;
  }

  /** A fractional month count runs one more pass than the deposits the
      report counts: half a month of 100 a month from nothing deposits 100
      in the loop, reports 50 as invested and the other 50 as return. */
  lemma HalfMonthHorizon(profile: RiskProfile)
    ensures var r := SimulateInvestment(0.0, 100.0, 1.0 / 24.0, profile);
      && r.totalInvested == 50.0
      && r.projectedValue == 100
      && r.totalReturn == 50
  {
    assert LoopCount(1.0 / 24.0 * 12.0) == 1;
    assert Compound(0.0, MonthlyRate(profile), 100.0, 1) == 100.0;
  }
}
