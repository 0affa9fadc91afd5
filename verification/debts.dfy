/** The debt manager: two payoff orders of the same debts (avalanche,
    highest interest first; snowball, smallest balance first), one payoff
    time estimate per order, the payment totals and advice. */
module DebtManager {
  import opened Sequences
  import opened StableSort

  /** A debt; `interestRate` is monthly and fractional (0.02 is 2% a month). */
  datatype Debt = Debt(name: string, balance: real, interestRate: real, minimumPayment: real)

  /** What `calculatePayoffTime` returns. `Estimate` carries the inputs of
      its closed-form month count
      `ceil(ln(1 + totalDebt * meanRate / available) / ln(1 + meanRate))`,
      which is evaluated in floating point and is not part of this model. */
  datatype PayoffTime =
    | Never                 // `Number.POSITIVE_INFINITY`: nothing available to pay with
    | Undefined             // NaN: no debts, so the mean rate is 0 / 0
    | Estimate(totalDebt: real, meanRate: real, available: real)

  datatype Strategy = Strategy(order: seq<string>, estimatedMonths: PayoffTime)

  /** The advice messages: earn more or spend less when nothing is left over
      the minimum payments; pay the debts above 3% a month first. */
  datatype DebtAdvice = IncreaseIncome | PrioritiseHighInterest

  datatype DebtPlan = DebtPlan(
    totalDebt: real,
    totalMinimumPayment: real,
    availableAmount: real,
    extraPayment: real,
    avalanche: Strategy,
    snowball: Strategy,
    recommendations: seq<DebtAdvice>)

  /** The monthly rate above which a debt counts as expensive. */
  const HighInterest: real := 0.03

  function Name(d: Debt): string { d.name }
  function Balance(d: Debt): real { d.balance }
  function Rate(d: Debt): real { d.interestRate }
  function MinimumPayment(d: Debt): real { d.minimumPayment }

  /** The avalanche comparator `b.interestRate - a.interestRate`, read as
      "a may stay in front of b". */
  predicate AvalancheLe(a: Debt, b: Debt)
  {
    a.interestRate >= b.interestRate
  }

  /** The snowball comparator `a.balance - b.balance`, read the same way. */
  predicate SnowballLe(a: Debt, b: Debt)
  {
    a.balance <= b.balance
  }

  lemma AvalancheIsPreorder()
    ensures TotalPreorder(AvalancheLe)
  {
  }

  lemma SnowballIsPreorder()
    ensures TotalPreorder(SnowballLe)
  {
  }

  /** `[...debts].sort(avalanche)`: a sorted copy, the input untouched. */
  function Avalanche(debts: seq<Debt>): seq<Debt>
  {
    Sort(debts, AvalancheLe)
  }

  /** `[...debts].sort(snowball)`. */
  function Snowball(debts: seq<Debt>): seq<Debt>
  {
    Sort(debts, SnowballLe)
  }

  /** The avalanche order holds the same debts, highest rate first. */
  lemma AvalancheOrder(debts: seq<Debt>)
    ensures multiset(Avalanche(debts)) == multiset(debts)
    ensures forall i, j :: 0 <= i < j < |Avalanche(debts)| ==>
      Avalanche(debts)[i].interestRate >= Avalanche(debts)[j].interestRate
  {
    AvalancheIsPreorder();
    SortSorted(debts, AvalancheLe);
  }

  /** Debts with equal rates keep their input order in the avalanche order:
      the debts sharing `d`'s rate appear in the same order in both. */
  lemma AvalancheStable(debts: seq<Debt>, d: Debt)
    ensures forall e :: e in Ties(debts, d, AvalancheLe) <==> e in debts && e.interestRate == d.interestRate
    ensures Ties(Avalanche(debts), d, AvalancheLe) == Ties(debts, d, AvalancheLe)
  {
    AvalancheIsPreorder();
    SortStable(debts, d, AvalancheLe);
  }

  /** The snowball order holds the same debts, smallest balance first. */
  lemma SnowballOrder(debts: seq<Debt>)
    ensures multiset(Snowball(debts)) == multiset(debts)
    ensures forall i, j :: 0 <= i < j < |Snowball(debts)| ==>
      Snowball(debts)[i].balance <= Snowball(debts)[j].balance
  {
    SnowballIsPreorder();
    SortSorted(debts, SnowballLe);
  }

  /** Debts with equal balances keep their input order in the snowball
      order: the debts sharing `d`'s balance appear in the same order in
      both. */
  lemma SnowballStable(debts: seq<Debt>, d: Debt)
    ensures forall e :: e in Ties(debts, d, SnowballLe) <==> e in debts && e.balance == d.balance
    ensures Ties(Snowball(debts), d, SnowballLe) == Ties(debts, d, SnowballLe)
  {
    SnowballIsPreorder();
    SortStable(debts, d, SnowballLe);
  }

  /** `calculatePayoffTime`: the unpayable sentinel when nothing is
      available, otherwise the closed-form estimate from the total balance
      and the plain mean of the rates. */
  function PayoffTimeOf(debts: seq<Debt>, availableAmount: real): (r: PayoffTime)
    ensures r == Never <==> availableAmount <= 0.0
    ensures r == Undefined <==> availableAmount > 0.0 && |debts| == 0
    ensures r.Estimate? ==>
      && r.totalDebt == SumBy(debts, Balance)
      && r.meanRate * |debts| as real == SumBy(debts, Rate)
      && r.available == availableAmount
  {
    if availableAmount <= 0.0 then Never
    else if |debts| == 0 then Undefined
    else Estimate(SumBy(debts, Balance), SumBy(debts, Rate) / |debts| as real, availableAmount)
  }

  /** The estimate reads only the total balance and the mean rate, so any
      reordering of the debts gives the same estimate. */
  lemma PayoffTimePermutation(a: seq<Debt>, b: seq<Debt>, availableAmount: real)
    requires multiset(a) == multiset(b)
    ensures PayoffTimeOf(a, availableAmount) == PayoffTimeOf(b, availableAmount)
  {
    assert |a| == |multiset(a)| == |multiset(b)| == |b|;
    SumByPermutation(a, b, Balance);
    SumByPermutation(a, b, Rate);
  }

  /** `debts.filter((debt) => debt.interestRate > 0.03)`. */
  function HighInterestDebts(debts: seq<Debt>): (r: seq<Debt>)
    ensures forall d :: d in r <==> d in debts && d.interestRate > HighInterest
  {
    if |debts| == 0 then []
    else
      assert debts == [debts[0]] + debts[1..];
      (if debts[0].interestRate > HighInterest then [debts[0]] else []) + HighInterestDebts(debts[1..])
  }

  /** `generateDebtRecommendations`: the income message exactly when no
      extra payment is left, then the priority message exactly when some
      debt charges more than 3% a month. */
  function DebtRecommendations(debts: seq<Debt>, extraPayment: real): (r: seq<DebtAdvice>)
    ensures IncreaseIncome in r <==> extraPayment <= 0.0
    ensures PrioritiseHighInterest in r <==> exists d :: d in debts && d.interestRate > HighInterest
    ensures IncreaseIncome in r ==> r[0] == IncreaseIncome
    ensures |r| == (if extraPayment <= 0.0 then 1 else 0)
                 + (if exists d :: d in debts && d.interestRate > HighInterest then 1 else 0)
  {
    var high := HighInterestDebts(debts);
    assert |high| > 0 ==> high[0] in high;
    (if extraPayment <= 0.0 then [IncreaseIncome] else [])
    + (if |high| > 0 then [PrioritiseHighInterest] else [])
  }

  /** The `execute` body of the debt manager. */
  function ManageDebts(debts: seq<Debt>, availableAmount: real): (r: DebtPlan)
    ensures r.totalDebt == SumBy(debts, Balance)
    ensures r.totalMinimumPayment == SumBy(debts, MinimumPayment)
    ensures r.availableAmount == availableAmount
    ensures r.extraPayment + r.totalMinimumPayment == availableAmount
    ensures r.avalanche.order == Image(Avalanche(debts), Name)
    ensures r.snowball.order == Image(Snowball(debts), Name)
    ensures multiset(r.avalanche.order) == multiset(Image(debts, Name))
    ensures multiset(r.snowball.order) == multiset(Image(debts, Name))
    ensures r.avalanche.estimatedMonths == r.snowball.estimatedMonths
    ensures r.avalanche.estimatedMonths == Never <==> availableAmount <= 0.0
    ensures IncreaseIncome in r.recommendations <==> r.extraPayment <= 0.0
    ensures PrioritiseHighInterest in r.recommendations <==>
      exists d :: d in debts && d.interestRate > HighInterest
    ensures r.recommendations == DebtRecommendations(debts, r.extraPayment)
  {
    var avalanche := Avalanche(debts);
    var snowball := Snowball(debts);
    ImagePermutation(avalanche, debts, Name);
    ImagePermutation(snowball, debts, Name);
    PayoffTimePermutation(avalanche, snowball, availableAmount);
    var totalMinimum := SumBy(debts, MinimumPayment);
    var extra := availableAmount - totalMinimum;
    DebtPlan(
      SumBy(debts, Balance), totalMinimum, availableAmount, extra,
      Strategy(Image(avalanche, Name), PayoffTimeOf(avalanche, availableAmount)),
      Strategy(Image(snowball, Name), PayoffTimeOf(snowball, availableAmount)),
      DebtRecommendations(debts, extra))
  }

  /** Both orders' estimates are the estimate for the debts as given. */
  lemma EstimatesIgnoreOrder(debts: seq<Debt>, availableAmount: real)
    ensures ManageDebts(debts, availableAmount).avalanche.estimatedMonths
         == PayoffTimeOf(debts, availableAmount)
  {
    PayoffTimePermutation(Avalanche(debts), debts, availableAmount);
  }

  /** Sorting two debts where the second must go in front of the first. */
  lemma SwapTwo(a: Debt, b: Debt, le: (Debt, Debt) -> bool)
    requires !le(a, b)
    ensures Sort([a, b], le) == [b, a]
  {
    assert [a, b][1..] == [b];
    assert [b][1..] == [];
    assert Sort([b], le) == [b];
    assert Insert(a, [b], le) == [b] + Insert(a, [], le);
  }

  /** Two debts where the second charges more and owes less (A at 1000 and
      2% a month, B at 500 and 5%, say): both orders put the second first. */
  lemma TwoDebtsOrders(a: Debt, b: Debt, availableAmount: real)
    requires b.interestRate > a.interestRate && b.balance < a.balance
    ensures ManageDebts([a, b], availableAmount).avalanche.order == [b.name, a.name]
    ensures ManageDebts([a, b], availableAmount).snowball.order == [b.name, a.name]
  {
    SwapTwo(a, b, AvalancheLe);
    SwapTwo(a, b, SnowballLe);
    assert Image([b, a], Name) == [b.name, a.name] by {
      assert [b, a][1..] == [a] && [a][1..] == [];
    }
  }

  /** For two debts the estimate uses their summed balance and the mean of
      their two rates. */
  lemma TwoDebtsEstimate(a: Debt, b: Debt, availableAmount: real)
    requires availableAmount > 0.0
    ensures PayoffTimeOf([a, b], availableAmount)
         == Estimate(a.balance + b.balance, (a.interestRate + b.interestRate) / 2.0, availableAmount)
  {
    var ds := [a, b];
    assert ds[..1] == [a] && [a][..0] == [];
    assert SumBy([a], Balance) == a.balance;
    assert SumBy(ds, Balance) == SumBy([a], Balance) + b.balance;
    assert SumBy([a], Rate) == a.interestRate;
    assert SumBy(ds, Rate) == SumBy([a], Rate) + b.interestRate;
  }
}
