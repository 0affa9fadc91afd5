/** The budget analyser: income against a list of categorised expenses,
    giving the savings, the savings rate, the total per category, the
    categories that take more than 15% of the income, and advice. */
module BudgetAnalyzer {
  import opened Sequences
  import JsMath

  datatype Expense = Expense(category: string, amount: real)

  /** One entry of `expensesByCategory`. */
  datatype CategoryTotal = CategoryTotal(category: string, amount: real)

  /** One entry of `highExpenseCategories`; `percentage` is the share of the
      income, unrounded. */
  datatype HighExpense = HighExpense(category: string, amount: real, percentage: real)

  /** The advice messages: the low-savings warning, and the "consider
      reducing" message for one category with its share of the income (the
      message text prints that share with one decimal). */
  datatype BudgetAdvice = RaiseSavingsRate | ReduceCategory(category: string, percentage: real)

  datatype BudgetReport = BudgetReport(
    totalIncome: real,
    totalExpenses: real,
    savings: real,
    savingsRate: real,
    expensesByCategory: seq<CategoryTotal>,
    highExpenseCategories: seq<HighExpense>,
    recommendations: seq<BudgetAdvice>)

  /** The share of the income above which a category counts as high. */
  const HighShare: real := 0.15

  /** The savings rate, in percent, below which saving more is advised. */
  const LowSavingsRate: real := 10.0

  /** `amount / income * 100`: an amount as a percentage of the income. */
  function Percent(amount: real, income: real): real
    requires income != 0.0
  {
    amount / income * 100.0
  }

  /** `amount / income > 0.15`: the amount takes more than 15% of the
      income. */
  predicate IsHigh(amount: real, income: real)
    requires income != 0.0
  {
    amount / income > HighShare
  }

  function Amount(e: Expense): real { e.amount }
  function CategoryOf(e: Expense): string { e.category }
  function TotalOf(t: CategoryTotal): real { t.amount }
  function Label(t: CategoryTotal): string { t.category }

  ghost predicate Distinct(cs: seq<string>)
  {
    forall i, j :: 0 <= i < j < |cs| ==> cs[i] != cs[j]
  }

  /** The categories of `cs`, each once, in the order of their first
      occurrence. */
  function FirstOccurrences(cs: seq<string>): (r: seq<string>)
    ensures forall c :: c in r <==> c in cs
  {
    if |cs| == 0 then []
    else
      var d, c := FirstOccurrences(cs[..|cs| - 1]), cs[|cs| - 1];
      assert cs == cs[..|cs| - 1] + [c];
      if c in d then d else d + [c]
  }

  lemma FirstOccurrencesAppend(cs: seq<string>, c: string)
    ensures FirstOccurrences(cs + [c])
         == if c in FirstOccurrences(cs) then FirstOccurrences(cs) else FirstOccurrences(cs) + [c]
  {
    assert (cs + [c])[..|cs|] == cs;
  }

  lemma {:induction false} FirstOccurrencesDistinct(cs: seq<string>)
    ensures Distinct(FirstOccurrences(cs))
  {
    if |cs| > 0 {
      FirstOccurrencesDistinct(cs[..|cs| - 1]);
    }
  }

  /** Each category of `cs` with the sum of its expenses, in the order of
      `cs`. */
  function Totals(cs: seq<string>, es: seq<Expense>): (r: seq<CategoryTotal>)
    ensures |r| == |cs|
    ensures forall k :: 0 <= k < |cs| ==> r[k] == CategoryTotal(cs[k], CategorySum(es, cs[k]))
  {
    if |cs| == 0 then [] else [CategoryTotal(cs[0], CategorySum(es, cs[0]))] + Totals(cs[1..], es)
  }

  /** The categories of `cs` whose sum is above 15% of the income, each with
      its sum and share, in the order of `cs`. */
  function HighReference(cs: seq<string>, es: seq<Expense>, income: real): seq<HighExpense>
    requires income != 0.0
  {
    if |cs| == 0 then []
    else
      var c := cs[0];
      (if IsHigh(CategorySum(es, c), income) then [HighExpense(c, CategorySum(es, c), Percent(CategorySum(es, c), income))] else [])
      + HighReference(cs[1..], es, income)
  }

  /** What `HighReference` keeps: exactly the high categories of `cs`. */
  lemma {:induction false} HighReferenceMembers(cs: seq<string>, es: seq<Expense>, income: real)
    requires income != 0.0
    ensures forall h :: h in HighReference(cs, es, income) ==>
      && h.category in cs
      && h.amount == CategorySum(es, h.category)
      && IsHigh(h.amount, income)
      && h.percentage == Percent(h.amount, income)
    ensures forall c :: c in cs && IsHigh(CategorySum(es, c), income) ==>
      HighExpense(c, CategorySum(es, c), Percent(CategorySum(es, c), income)) in HighReference(cs, es, income)
  {
    if |cs| > 0 {
      HighReferenceMembers(cs[1..], es, income);
      assert cs == [cs[0]] + cs[1..];
    }
  }

  /** The amount spent on category `c`: the sum of the amounts of the
      expenses filed under it. */
  function CategorySum(es: seq<Expense>, c: string): real
  {
    if |es| == 0 then 0.0
    else CategorySum(es[..|es| - 1], c) + (if es[|es| - 1].category == c then es[|es| - 1].amount else 0.0)
  }

  /** `acc[c] || 0`: the running total of category `c`, 0 before its first
      expense. */
  function Lookup(acc: seq<CategoryTotal>, c: string): real
  {
    if |acc| == 0 then 0.0
    else if acc[0].category == c then acc[0].amount
    else Lookup(acc[1..], c)
  }

  /** One step of the per-category `reduce`: add the expense to its
      category's entry, creating the entry at the end on first sight. */
  function Accumulate(acc: seq<CategoryTotal>, e: Expense): seq<CategoryTotal>
  {
    if |acc| == 0 then [CategoryTotal(e.category, e.amount)]
    else if acc[0].category == e.category then [CategoryTotal(e.category, acc[0].amount + e.amount)] + acc[1..]
    else [acc[0]] + Accumulate(acc[1..], e)
  }

  /** `expensesByCategory`, in the order its keys were created. */
  function Tally(es: seq<Expense>): seq<CategoryTotal>
  {
    if |es| == 0 then [] else Accumulate(Tally(es[..|es| - 1]), es[|es| - 1])
  }

  /** One accumulation step appends the expense's category when it is new
      and otherwise keeps the categories as they are. */
  lemma {:induction false} AccumulateLabels(acc: seq<CategoryTotal>, e: Expense)
    ensures Image(Accumulate(acc, e), Label)
         == if e.category in Image(acc, Label) then Image(acc, Label) else Image(acc, Label) + [e.category]
  {
    if |acc| > 0 {
      var r := Accumulate(acc, e);
      var rest := acc[1..];
      assert acc == [acc[0]] + rest;
      ImageAppend([acc[0]], rest, Label);
      if acc[0].category == e.category {
        ImageAppend([r[0]], rest, Label);
      } else {
        AccumulateLabels(rest, e);
        ImageAppend([acc[0]], Accumulate(rest, e), Label);
      }
    }
  }

  /** One accumulation step adds the amount to its own category's total and
      to no other. */
  lemma {:induction false} AccumulateLookup(acc: seq<CategoryTotal>, e: Expense, c: string)
    ensures Lookup(Accumulate(acc, e), c) == Lookup(acc, c) + (if c == e.category then e.amount else 0.0)
  {
    if |acc| > 0 && acc[0].category != e.category {
      AccumulateLookup(acc[1..], e, c);
    }
  }

  /** One accumulation step adds the amount to the sum of the totals. */
  lemma {:induction false} AccumulateSum(acc: seq<CategoryTotal>, e: Expense)
    ensures SumBy(Accumulate(acc, e), TotalOf) == SumBy(acc, TotalOf) + e.amount
  {
    var r := Accumulate(acc, e);
    if |acc| == 0 {
      assert r[..0] == [];
    } else {
      var rest := acc[1..];
      assert acc == [acc[0]] + rest;
      SumByAppend([acc[0]], rest, TotalOf);
      assert [acc[0]][..0] == [];
      if acc[0].category == e.category {
        SumByAppend([r[0]], rest, TotalOf);
        assert [r[0]][..0] == [];
      } else {
        AccumulateSum(rest, e);
        SumByAppend([acc[0]], Accumulate(rest, e), TotalOf);
      }
    }
  }

  /** The categories of `expensesByCategory` are the categories of the
      expenses in the order of their first occurrence. */
  lemma {:induction false} TallyLabels(es: seq<Expense>)
    ensures Image(Tally(es), Label) == FirstOccurrences(Image(es, CategoryOf))
  {
    if |es| > 0 {
      var p, e := es[..|es| - 1], es[|es| - 1];
      TallyLabels(p);
      AccumulateLabels(Tally(p), e);
      assert es == p + [e];
      ImageAppend(p, [e], CategoryOf);
      FirstOccurrencesAppend(Image(p, CategoryOf), e.category);
    }
  }

  /** Each category's entry holds the sum of that category's amounts. */
  lemma {:induction false} TallyLookup(es: seq<Expense>, c: string)
    ensures Lookup(Tally(es), c) == CategorySum(es, c)
  {
    if |es| > 0 {
      TallyLookup(es[..|es| - 1], c);
      AccumulateLookup(Tally(es[..|es| - 1]), es[|es| - 1], c);
    }
  }

  /** The category totals together sum to the total of the expenses. */
  lemma {:induction false} TallySum(es: seq<Expense>)
    ensures SumBy(Tally(es), TotalOf) == SumBy(es, Amount)
  {
    if |es| > 0 {
      TallySum(es[..|es| - 1]);
      AccumulateSum(Tally(es[..|es| - 1]), es[|es| - 1]);
    }
  }

  /** With distinct categories, an entry's amount is what `Lookup` finds. */
  lemma {:induction false} LookupDistinct(ts: seq<CategoryTotal>, k: nat)
    requires Distinct(Image(ts, Label)) && k < |ts|
    ensures Lookup(ts, ts[k].category) == ts[k].amount
  {
    if k > 0 {
      assert Image(ts, Label)[0] != Image(ts, Label)[k];
      assert Image(ts[1..], Label) == Image(ts, Label)[1..];
      LookupDistinct(ts[1..], k - 1);
    }
  }

  /** `highExpenseCategories`: the entries whose share of the income is
      above 15%, with that share as a percentage. */
  function HighExpenses(ts: seq<CategoryTotal>, income: real): (r: seq<HighExpense>)
    requires income != 0.0
    ensures forall h :: h in r ==>
      && CategoryTotal(h.category, h.amount) in ts
      && IsHigh(h.amount, income)
      && h.percentage == Percent(h.amount, income)
    ensures forall t :: t in ts && IsHigh(t.amount, income) ==>
      HighExpense(t.category, t.amount, Percent(t.amount, income)) in r
    ensures |r| <= |ts|
  {
    if |ts| == 0 then []
    else
      var t := ts[0];
      assert ts == [t] + ts[1..];
      (if IsHigh(t.amount, income) then [HighExpense(t.category, t.amount, Percent(t.amount, income))] else [])
      + HighExpenses(ts[1..], income)
  }

  /** `expensesByCategory` is each category of the expenses, in the order
      of first occurrence, with the sum of its amounts. */
  lemma TallyIsTotals(es: seq<Expense>)
    ensures Tally(es) == Totals(FirstOccurrences(Image(es, CategoryOf)), es)
  {
    var ts, cs := Tally(es), FirstOccurrences(Image(es, CategoryOf));
    TallyLabels(es);
    FirstOccurrencesDistinct(Image(es, CategoryOf));
    forall k | 0 <= k < |ts|
      ensures ts[k] == Totals(cs, es)[k]
    {
      assert ts[k].category == cs[k];
      LookupDistinct(ts, k);
      TallyLookup(es, cs[k]);
    }
  }

  /** Filtering the category totals is filtering the categories. */
  lemma {:induction false} HighOfTotals(cs: seq<string>, es: seq<Expense>, income: real)
    requires income != 0.0
    ensures HighExpenses(Totals(cs, es), income) == HighReference(cs, es, income)
  {
    if |cs| > 0 {
      HighOfTotals(cs[1..], es, income);
      assert Totals(cs, es)[1..] == Totals(cs[1..], es);
    }
  }

  function Advise(h: HighExpense): BudgetAdvice
  {
    ReduceCategory(h.category, h.percentage)
  }

  /** `generateBudgetRecommendations`: the low-savings warning first when the
      rate is below 10%, then one message per high-expense category, in the
      filter's order. */
  function BudgetRecommendations(savingsRate: real, high: seq<HighExpense>): (r: seq<BudgetAdvice>)
    ensures |r| == (if savingsRate < LowSavingsRate then 1 else 0) + |high|
    ensures RaiseSavingsRate in r <==> savingsRate < LowSavingsRate
    ensures savingsRate < LowSavingsRate ==> r[0] == RaiseSavingsRate
    ensures forall k :: 0 <= k < |high| ==>
      r[|r| - |high| + k] == ReduceCategory(high[k].category, high[k].percentage)
  {
    (if savingsRate < LowSavingsRate then [RaiseSavingsRate] else []) + Image(high, Advise)
  }

  /** The `execute` body of the budget analyser. The source divides by the
      income without a guard, so a zero income is outside its domain. */
  function AnalyzeBudget(income: real, expenses: seq<Expense>): (r: BudgetReport)
    requires income != 0.0
    ensures r.totalIncome == income
    ensures r.totalExpenses == SumBy(expenses, Amount)
    ensures r.savings + r.totalExpenses == income
    ensures Percent(r.savings, income) - 0.005 < r.savingsRate <= Percent(r.savings, income) + 0.005
    ensures r.expensesByCategory == Tally(expenses)
    ensures r.highExpenseCategories == HighExpenses(Tally(expenses), income)
    ensures r.recommendations == BudgetRecommendations(Percent(r.savings, income), r.highExpenseCategories)
  {
    var total := SumBy(expenses, Amount);
    var savings := income - total;
    var rate := Percent(savings, income);
    var byCategory := Tally(expenses);
    var high := HighExpenses(byCategory, income);
    BudgetReport(income, total, savings, JsMath.RoundToCents(rate), byCategory, high, BudgetRecommendations(rate, high))
  }

  /** `expensesByCategory`: each category of the expenses exactly once, in
      the order of first occurrence, with the sum of its amounts; the totals
      add up to the total expenses. */
  lemma ExpensesByCategory(income: real, expenses: seq<Expense>)
    requires income != 0.0
    ensures var ts := AnalyzeBudget(income, expenses).expensesByCategory;
      && ts == Totals(FirstOccurrences(Image(expenses, CategoryOf)), expenses)
      && Distinct(Image(ts, Label))
      && SumBy(ts, TotalOf) == SumBy(expenses, Amount)
  {
    TallyIsTotals(expenses);
    TallyLabels(expenses);
    FirstOccurrencesDistinct(Image(expenses, CategoryOf));
    TallySum(expenses);
  }

  /** `highExpenseCategories`: exactly the categories whose sum is above 15%
      of the income, each with its sum and share, in the order of first
      occurrence. */
  lemma HighExpenseCategories(income: real, expenses: seq<Expense>)
    requires income != 0.0
    ensures var hs := AnalyzeBudget(income, expenses).highExpenseCategories;
      && hs == HighReference(FirstOccurrences(Image(expenses, CategoryOf)), expenses, income)
      && (forall h :: h in hs ==>
            && h.category in Image(expenses, CategoryOf)
            && h.amount == CategorySum(expenses, h.category)
            && IsHigh(h.amount, income))
      && (forall c :: c in Image(expenses, CategoryOf) && IsHigh(CategorySum(expenses, c), income) ==>
            HighExpense(c, CategorySum(expenses, c), Percent(CategorySum(expenses, c), income)) in hs)
  {
    var cs := FirstOccurrences(Image(expenses, CategoryOf));
    TallyIsTotals(expenses);
    HighOfTotals(cs, expenses, income);
    HighReferenceMembers(cs, expenses, income);
  }

  /** For a positive income the low-savings warning fires exactly when less
      than a tenth of the income is saved; a budget that spends the whole
      income (savings 0, rate 0) therefore gets it. */
  lemma LowSavingsWarning(income: real, expenses: seq<Expense>)
    requires income > 0.0
    ensures var r := AnalyzeBudget(income, expenses);
      RaiseSavingsRate in r.recommendations <==> 10.0 * r.savings < income
  {
    var r := AnalyzeBudget(income, expenses);
    RateBelowTenPercent(r.savings, income);
  }

  /** `savings / income * 100 < 10` is `10 * savings < income` for a
      positive income. */
  lemma RateBelowTenPercent(savings: real, income: real)
    requires income > 0.0
    ensures Percent(savings, income) < LowSavingsRate <==> 10.0 * savings < income
  {
    var q := savings / income;
    assert q * income == savings;
    if q < 0.1 {
      assert q * income < 0.1 * income;
    } else {
      assert q * income >= 0.1 * income;
    }
  }

  /** A budget that spends exactly its income reports no savings and a rate
      of 0, and is told to save more first. */
  lemma BalancedBudgetWarns(income: real, expenses: seq<Expense>)
    requires income != 0.0 && SumBy(expenses, Amount) == income
    ensures var r := AnalyzeBudget(income, expenses);
      && r.savings == 0.0
      && r.savingsRate == 0.0
      && r.recommendations[0] == RaiseSavingsRate
  {
  }

  /** The warning is decided on the unrounded rate while the report carries
      the rounded one: saving 9.996% reports a rate of 10 and still warns. */
  lemma RoundedRateCanHideWarning()
    ensures var r := AnalyzeBudget(10000.0, [Expense("rent", 9000.4)]);
      && r.savingsRate == 10.0
      && r.recommendations[0] == RaiseSavingsRate
  {
    var es := [Expense("rent", 9000.4)];
    assert SumBy(es, Amount) == 9000.4 by {
      assert es[..0] == [];
    }
    assert JsMath.Round(999.6) == 1000;
  }
}
