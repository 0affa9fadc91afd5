# Financial calculators

This is a model of the four calculator tools of a chat-based financial
adviser and their rule-based advice generators, all in
`lib/financial-agents.ts`:

- **Budget analyser.** It takes an income and a list of categorised
  expenses. It returns:
  - the total of the expenses, the savings and the savings rate;
  - the total per category;
  - the categories that take more than 15% of the income;
  - advice.
- **Investment simulator.** It compounds an initial amount and a monthly
  contribution at the monthly rate of a risk profile, once per month of
  the horizon. It reports the amount invested, the projected value, the
  return and advice.
- **Debt manager.** It orders the debts in two ways:
  - avalanche: highest interest first;
  - snowball: smallest balance first.

  It estimates the payoff time of each order with `calculatePayoffTime`,
  totals the balances and minimum payments, and gives advice.
- **Financial planner.** From the age and income it computes the years to
  retirement at 65 and the savings needed. It orders the goals by priority
  and then by deadline, gives each goal the monthly amount it needs, and
  gives advice.

The model uses exact reals for JavaScript numbers. Where the source can
divide by zero, module `JsNumber` adds the two infinities and NaN, with
JavaScript's addition and comparison rules. This applies to the planner's
monthly amounts and their total, and to the simulator's return percentage. `JsMath` gives `Math.round` and the
two-decimal rounding `Math.round(x * 100) / 100`. `Sequences` holds the
folds (`reduce`), the maps and their permutation lemmas. `StableSort` is
the stable sort behind `Array.prototype.sort` with a consistent
comparator. A comparator `cmp` is read as the relation `cmp(a, b) <= 0`. The
module proves that the insertion sort it defines is sorted, is a
permutation and is stable. It also proves that any stable sorted
arrangement equals that sort. The advice messages are tags with their data,
not the Portuguese text.

The code's behaviour at its edges, as the model keeps it:

- **No input guards.** The code never rejects an input; a zero income, an
  empty debt list or a zero goal timeframe divides by zero.
  - The planner's monthly amounts model that division exactly:
    `Infinity`, `-Infinity` or `NaN`, and their sum.
  - An empty debt list, with a positive available amount, gives a NaN
    estimate (`Undefined`); with nothing available the unpayable sentinel
    comes first.
  - The budget analyser needs a non-zero income; see "Left out".
- **Investment example.** One year of the conservative profile from 1000
  with 100 a month projects 2328 (`OneYearConservative`).
- **Loop count.** The loop runs once per started month, that is
  `ceil(months)` passes (`LoopCount`), while the invested amount counts the
  fractional months exactly. Half a month from nothing therefore reports a
  return equal to half a contribution (`HalfMonthHorizon`).
- **Horizon advice.** The two horizon messages are an `if / else if`, so
  at most one of them appears.
- **Low-savings warning.** The warning is decided on the unrounded savings
  rate, while the report carries the rounded rate
  (`RoundedRateCanHideWarning`).
- **Payoff estimate.** The estimate reads only the total balance and the
  mean rate. It ignores the order of the debts and the minimum payments,
  so over exact numbers both strategies report the same estimate. In
  floating point the two sums run over differently ordered copies and may
  differ in the last bits.

## Model

| member | source | states |
|---|---|---|
| JsMath.Round | lib/financial-agents.ts:84-85 | `Math.round` lands within half a unit of its argument |
| JsMath.RoundToCents | lib/financial-agents.ts:41 | rounding to two decimals gives a whole number of cents at most half a cent from the value, which fixes the result |
| JsNumber.Divide | lib/financial-agents.ts:177 | a division is finite exactly when the divisor is non-zero, and then undoes the multiplication; otherwise the dividend's sign picks `Infinity`, `-Infinity` or NaN |
| JsNumber.SumClassified | lib/financial-agents.ts:181 | a left-to-right sum of numbers is NaN exactly when a term is NaN or both infinities occur, an infinity exactly when only that infinity occurs, and otherwise the exact sum of the terms |
| JsNumber.SumPermutation | lib/financial-agents.ts:181 | reordering the terms does not change such a sum |
| Sequences.SumByPermutation | lib/financial-agents.ts:260-261 | a `reduce` sum over any rearrangement of the same items is the same |
| Sequences.ImagePermutation | lib/financial-agents.ts:129-136 | mapping two rearrangements of the same items gives rearrangements of the same values |
| StableSort.SortStable | lib/financial-agents.ts:111-114 | sorting keeps the input order among elements that compare equal |
| StableSort.StableSortIsUnique | lib/financial-agents.ts:169-172 | any arrangement that is sorted and keeps equal elements in input order is the one the sort returns |
| BudgetAnalyzer.AnalyzeBudget | lib/financial-agents.ts:18-46 | the savings and the total expenses add up to the income; the total is the sum of all amounts; the reported rate is within half a cent of the savings as a percentage of the income; the advice is computed from the unrounded rate and the high categories |
| BudgetAnalyzer.TallyLabels | lib/financial-agents.ts:24-30 | the per-category totals carry each category of the expenses, in the order of its first occurrence |
| BudgetAnalyzer.AccumulateLookup | lib/financial-agents.ts:26 | one step of the per-category reduce adds the amount to its own category's total and changes no other total |
| BudgetAnalyzer.TallySum | lib/financial-agents.ts:19-30 | the per-category totals add up to the total expenses |
| BudgetAnalyzer.TallyIsTotals | lib/financial-agents.ts:24-30 | the per-category reduce equals the independent definition "each distinct category, in first-occurrence order, with the sum of its amounts" |
| BudgetAnalyzer.ExpensesByCategory | lib/financial-agents.ts:24-30 | in the report, every category appears exactly once with the sum of its amounts, and the totals add up to the total expenses |
| BudgetAnalyzer.HighExpenses | lib/financial-agents.ts:33-35 | the high-expense filter keeps exactly the totals above 15% of the income, each with its share of the income as a percentage |
| BudgetAnalyzer.HighOfTotals | lib/financial-agents.ts:33-35 | filtering the category totals equals filtering the categories by their sums |
| BudgetAnalyzer.HighExpenseCategories | lib/financial-agents.ts:33-35 | a category of the expenses is reported as high exactly when its sum is above 15% of the income, with that sum and share, in first-occurrence order |
| BudgetAnalyzer.BudgetRecommendations | lib/financial-agents.ts:197-211 | the low-savings warning comes first exactly when the rate is below 10; then comes one reduce message per high category, in order; so the list length is the warning count plus the high-category count |
| BudgetAnalyzer.LowSavingsWarning | lib/financial-agents.ts:200-202 | for a positive income the warning fires exactly when less than a tenth of the income is saved |
| BudgetAnalyzer.RateBelowTenPercent | lib/financial-agents.ts:21 | a savings rate below 10% means saving less than a tenth of a positive income |
| BudgetAnalyzer.BalancedBudgetWarns | lib/financial-agents.ts:19-44 | a budget that spends exactly its income reports savings 0 and a rate of 0, and gets the low-savings warning first |
| BudgetAnalyzer.RoundedRateCanHideWarning | lib/financial-agents.ts:41-44 | saving 9.996% reports a rounded rate of 10 and still warns |
| InvestmentSimulator.MonthlyRate | lib/financial-agents.ts:59-70 | every profile's monthly rate is a positive twelfth of its annual return, below 2% |
| InvestmentSimulator.LoopCount | lib/financial-agents.ts:72 | the loop runs the least whole number of passes not below the month count |
| InvestmentSimulator.ProjectBalance | lib/financial-agents.ts:69-74 | the loop leaves the balance after that many compounding steps |
| InvestmentSimulator.CompoundClosedForm | lib/financial-agents.ts:72-74 | the monthly recurrence agrees with the annuity formula `(initial * r + c) * (1 + r)^n - c` |
| InvestmentSimulator.CompoundCoversDeposits | lib/financial-agents.ts:72-76 | with nothing negative, the balance after `n` passes is at least the deposits of those passes |
| InvestmentSimulator.InvestmentRecommendations | lib/financial-agents.ts:213-227 | the short-horizon message fires exactly when the horizon is under 2 years and the long-horizon one exactly when it is over 10, never both; diversification fires exactly for the conservative profile and comes last; each message appears at most once, so the length is the number of conditions that hold |
| InvestmentSimulator.SimulateInvestment | lib/financial-agents.ts:58-90 | the report echoes the profile and the horizon; the invested amount is the initial amount plus the contributions over the months; the projection is the rounded balance after one compounding step per started month, and the return is the rounded difference between that balance and the invested amount; with no positive horizon the projection is the rounded initial amount; the return percentage is the return over the invested amount, times 100, to two decimals, and when nothing was invested it is `Infinity`, `-Infinity` or NaN according to the sign of the balance; the monthly rate is the rounded percentage of the monthly rate to two decimals |
| InvestmentSimulator.NonNegativeReturn | lib/financial-agents.ts:76-85 | with a non-negative initial amount and contribution the reported return is never negative |
| InvestmentSimulator.WholeYearsProjection | lib/financial-agents.ts:66-74 | over whole years the projection is twelve compounding steps per year |
| InvestmentSimulator.OneYearConservative | lib/financial-agents.ts:58-84 | 1000 plus 100 a month for one conservative year projects 2328 |
| InvestmentSimulator.HalfMonthHorizon | lib/financial-agents.ts:66-77 | half a month of contributions from nothing runs one full pass: invested 50, projected 100, return 50 |
| DebtManager.AvalancheOrder | lib/financial-agents.ts:111 | the avalanche order holds the same debts, highest rate first |
| DebtManager.AvalancheStable | lib/financial-agents.ts:111 | the debts sharing a rate appear in the avalanche order in their input order |
| DebtManager.SnowballOrder | lib/financial-agents.ts:114 | the snowball order holds the same debts, smallest balance first |
| DebtManager.SnowballStable | lib/financial-agents.ts:114 | the debts sharing a balance appear in the snowball order in their input order |
| DebtManager.PayoffTimeOf | lib/financial-agents.ts:258-268 | the estimate is the unpayable sentinel exactly when nothing is available; with something available, it is undefined exactly when there are no debts; otherwise it uses the total balance and the mean rate |
| DebtManager.PayoffTimePermutation | lib/financial-agents.ts:117-118 | any reordering of the debts gives the same estimate |
| DebtManager.HighInterestDebts | lib/financial-agents.ts:236 | the filter keeps exactly the debts above 3% a month |
| DebtManager.DebtRecommendations | lib/financial-agents.ts:229-242 | the income message comes first exactly when no extra payment is left; the priority message appears exactly when some debt charges more than 3% a month; each appears at most once, so the length is the number of conditions that hold |
| DebtManager.ManageDebts | lib/financial-agents.ts:109-140 | the totals are the sums of balances and minimum payments, and the extra payment is what remains of the available amount; both orders list the names of the same debts; both estimates are equal and are the sentinel exactly when nothing is available; the advice is exactly the generator's list for the extra payment, so each message appears once and in order |
| DebtManager.EstimatesIgnoreOrder | lib/financial-agents.ts:117-118 | the strategies' estimate is the estimate for the debts as given |
| DebtManager.SwapTwo | lib/financial-agents.ts:111-114 | two items out of order come back swapped |
| DebtManager.TwoDebtsOrders | lib/financial-agents.ts:109-136 | a second debt with a higher rate and a lower balance comes first in both orders |
| DebtManager.TwoDebtsEstimate | lib/financial-agents.ts:258-263 | for two debts the estimate uses the summed balance and the mean of the two rates |
| FinancialPlanner.PrioritizeOrder | lib/financial-agents.ts:169-172 | the prioritised goals are the same goals, by priority and then nearest deadline first |
| FinancialPlanner.PrioritizeStable | lib/financial-agents.ts:169-172 | goals that compare equal keep their input order |
| FinancialPlanner.MonthlyAmount | lib/financial-agents.ts:175-179 | a goal's monthly amount is finite exactly when it has a timeframe, and then spreads the target over its months; without a timeframe it is `Infinity` for a positive target, `-Infinity` for a negative one and NaN for a zero one |
| FinancialPlanner.RetirementNeeded | lib/financial-agents.ts:164-166 | 25 years of 80% of the annual income is 240 monthly incomes |
| FinancialPlanner.PlanRecommendations | lib/financial-agents.ts:244-256 | the revision message comes first exactly when the goals need more than 30% of the income; the caution message appears exactly when retirement is under 10 years away; each appears at most once, so the length is the number of conditions that hold |
| FinancialPlanner.PlanFinances | lib/financial-agents.ts:160-194 | the report echoes the age and the retirement age of 65; the years to retirement and the age add up to 65; the retirement need is 240 incomes; the planned goals are the prioritised goals, each with its own monthly amount; the total is the sum over the goals as given; caution is advised exactly past age 55; the advice is exactly the generator's list for the income, the total and the years left |
| FinancialPlanner.PlanTotal | lib/financial-agents.ts:175-181 | over exact numbers, the total over the prioritised goals equals the total over the goals in input order |
| FinancialPlanner.PlanOrder | lib/financial-agents.ts:169-189 | the plan lists its goals by priority and then nearest deadline first |
| FinancialPlanner.DatedGoalsTotal | lib/financial-agents.ts:175-181 | when every goal has a timeframe, the total is the exact sum of the monthly amounts, and that sum decides the revision message |
| FinancialPlanner.UndatedGoal | lib/financial-agents.ts:175-181 | a goal with no timeframe and a positive target makes the total infinite and triggers the revision message, unless another undated goal turns the total into NaN |

## Left out

- The chat interface, the API route, the currency sidebar and the tool/schema wrappers (`tool`, `zod`, `async`) are not part of this model. The schemas only check types, so they add no constraint on the values.
- Floating point: the model computes with exact reals, so rounding drift in the monthly loop and the sign of `-0` are not modelled. Order-dependent sums are affected too: the payoff estimate's balance and rate sums over the two sorted copies, and the planner's total over the goals in priority order, may differ in floating point from the same sums in another order.
- The advice texts are tags carrying their data. The one-decimal `toFixed(1)` formatting of a category's percentage is not modelled.
- BudgetAnalyzer.AnalyzeBudget: requires a non-zero income. With a zero income the source reports NaN or infinite rates and shares, which the model does not follow.
- BudgetAnalyzer.AnalyzeBudget: `expensesByCategory` is a sequence in key-creation order. JavaScript object key quirks are not modelled: integer-like category names are listed first, and a category named like an `Object.prototype` member reads an inherited value.
- DebtManager.PayoffTimeOf: the estimate is returned as its inputs (total balance, mean rate, available amount). The `Math.log`/`Math.ceil` month count is not evaluated, including its infinite or NaN value when the mean rate is zero or makes a logarithm undefined.
- The unused `volatility` column of the risk-profile table is not modelled.
- FinancialPlanner.PlanFinances: the source sorts the caller's `goals` array in place. The model returns the sorted sequence and leaves the input as it was.
