/** The financial planner: retirement figures from age and income, the goals
    ordered by priority and then by deadline, the monthly amount each goal
    needs and the advice. */
module FinancialPlanner {
  import opened Sequences
  import opened StableSort
  import opened JsNumber

  /** The priorities "alta", "média" and "baixa". */
  datatype Priority = High | Medium | Low

  /** A goal; `timeframe` is in years. */
  datatype Goal = Goal(name: string, targetAmount: real, timeframe: real, priority: Priority)

  /** A goal with the amount it needs each month (`{ ...goal, monthlyAmount }`). */
  datatype PlannedGoal = PlannedGoal(goal: Goal, monthlyAmount: Number)

  /** The advice messages: revise over-ambitious goals; keep capital safe
      close to retirement. */
  datatype PlanAdvice = ReviseGoals | PreserveCapital

  datatype FinancialPlan = FinancialPlan(
    currentAge: real,
    retirementAge: real,
    yearsToRetirement: real,
    retirementNeeded: real,
    currentSavings: real,
    prioritizedGoals: seq<PlannedGoal>,
    totalMonthlyForGoals: Number,
    recommendations: seq<PlanAdvice>)

  const RetirementAge: real := 65.0
  /** Goals asking more than this share of the monthly income are too much. */
  const GoalShare: real := 0.3
  /** Fewer years to retirement than this calls for conservative investing. */
  const CautionYears: real := 10.0

  /** The priority table `{ alta: 3, média: 2, baixa: 1 }`. */
  function Rank(p: Priority): int
  {
    match p
    case High => 3
    case Medium => 2
    case Low => 1
  }

  /** The comparator `rank(b) - rank(a) || a.timeframe - b.timeframe`, read
      as "a may stay in front of b": a higher priority first, and within a
      priority the nearer deadline first. */
  predicate GoalLe(a: Goal, b: Goal)
  {
    Rank(a.priority) > Rank(b.priority)
    || (Rank(a.priority) == Rank(b.priority) && a.timeframe <= b.timeframe)
  }

  lemma GoalLeIsPreorder()
    ensures TotalPreorder(GoalLe)
  {
  }

  /** `goals.sort(...)`. */
  function Prioritize(goals: seq<Goal>): seq<Goal>
  {
    Sort(goals, GoalLe)
  }

  /** The prioritised goals are the same goals, in priority order and, within
      a priority, nearest deadline first. */
  lemma PrioritizeOrder(goals: seq<Goal>)
    ensures multiset(Prioritize(goals)) == multiset(goals)
    ensures forall i, j :: 0 <= i < j < |Prioritize(goals)| ==>
      var a, b := Prioritize(goals)[i], Prioritize(goals)[j];
      Rank(a.priority) > Rank(b.priority)
      || (a.priority == b.priority && a.timeframe <= b.timeframe)
  {
    GoalLeIsPreorder();
    SortSorted(goals, GoalLe);
  }

  /** Goals with the same priority and deadline keep their input order. */
  lemma PrioritizeStable(goals: seq<Goal>, g: Goal)
    ensures Ties(Prioritize(goals), g, GoalLe) == Ties(goals, g, GoalLe)
  {
    GoalLeIsPreorder();
    SortStable(goals, g, GoalLe);
  }

  /** The target spread over the months of the timeframe. A zero timeframe
      divides by zero. */
  function MonthlyAmount(g: Goal): (r: Number)
    ensures r.Finite? <==> g.timeframe != 0.0
    ensures r.Finite? ==> r.value * (g.timeframe * 12.0) == g.targetAmount
    ensures r == PlusInfinity <==> g.timeframe == 0.0 && g.targetAmount > 0.0
    ensures r == MinusInfinity <==> g.timeframe == 0.0 && g.targetAmount < 0.0
    ensures r == NaN <==> g.timeframe == 0.0 && g.targetAmount == 0.0
  {
    Divide(g.targetAmount, g.timeframe * 12.0)
  }

  function Plan(g: Goal): PlannedGoal
  {
    PlannedGoal(g, MonthlyAmount(g))
  }

  function Monthly(p: PlannedGoal): Number
  {
    p.monthlyAmount
  }

  function GoalOf(p: PlannedGoal): Goal
  {
    p.goal
  }

  /** Twenty-five years of expenses estimated at 80% of the income, that is
      240 monthly incomes. */
  function RetirementNeeded(income: real): (r: real)
    ensures r == 240.0 * income
  {
    assert income * 12.0 * 0.8 * 25.0 == income * 240.0;
    income * 12.0 * 0.8 * 25.0
  }

  /** `generateFinancialPlanRecommendations`: the revision message exactly
      when the goals ask more than 30% of the income, then the caution
      message exactly when retirement is less than ten years away. */
  function PlanRecommendations(income: real, totalMonthly: Number, yearsToRetirement: real): (r: seq<PlanAdvice>)
    ensures ReviseGoals in r <==> Exceeds(totalMonthly, income * GoalShare)
    ensures PreserveCapital in r <==> yearsToRetirement < CautionYears
    ensures ReviseGoals in r ==> r[0] == ReviseGoals
    ensures |r| == (if Exceeds(totalMonthly, income * GoalShare) then 1 else 0)
                 + (if yearsToRetirement < CautionYears then 1 else 0)
  {
    (if Exceeds(totalMonthly, income * GoalShare) then [ReviseGoals] else [])
    + (if yearsToRetirement < CautionYears then [PreserveCapital] else [])
  }

  /** The `execute` body of the planner. */
  function PlanFinances(age: real, income: real, currentSavings: real, goals: seq<Goal>): (r: FinancialPlan)
    ensures r.currentAge == age && r.retirementAge == RetirementAge
    ensures r.yearsToRetirement + age == RetirementAge
    ensures r.retirementNeeded == 240.0 * income
    ensures r.currentSavings == currentSavings
    ensures |r.prioritizedGoals| == |goals|
    ensures Image(r.prioritizedGoals, GoalOf) == Prioritize(goals)
    ensures multiset(Image(r.prioritizedGoals, GoalOf)) == multiset(goals)
    ensures forall i :: 0 <= i < |r.prioritizedGoals| ==>
      r.prioritizedGoals[i].monthlyAmount == MonthlyAmount(r.prioritizedGoals[i].goal)
    ensures r.totalMonthlyForGoals == Sum(Image(goals, MonthlyAmount))
    ensures ReviseGoals in r.recommendations <==> Exceeds(r.totalMonthlyForGoals, income * GoalShare)
    ensures PreserveCapital in r.recommendations <==> age > RetirementAge - CautionYears
    ensures r.recommendations == PlanRecommendations(income, r.totalMonthlyForGoals, r.yearsToRetirement)
  {
    var years := RetirementAge - age;
    var prioritized := Prioritize(goals);
    var planned := Image(prioritized, Plan);
    var total := Sum(Image(planned, Monthly));
    PlannedGoals(prioritized);
    PlanTotal(goals);
    FinancialPlan(
      age, RetirementAge, years, RetirementNeeded(income), currentSavings,
      planned, total, PlanRecommendations(income, total, years))
  }

  /** Planning keeps each goal and reads its monthly amount. */
  lemma PlannedGoals(goals: seq<Goal>)
    ensures Image(Image(goals, Plan), GoalOf) == goals
    ensures Image(Image(goals, Plan), Monthly) == Image(goals, MonthlyAmount)
  {
  }

  /** The total over the prioritised goals is the total over the goals as
      given. */
  lemma PlanTotal(goals: seq<Goal>)
    ensures Sum(Image(Image(Prioritize(goals), Plan), Monthly)) == Sum(Image(goals, MonthlyAmount))
  {
    var prioritized := Prioritize(goals);
    PlannedGoals(prioritized);
    ImagePermutation(prioritized, goals, MonthlyAmount);
    SumPermutation(Image(prioritized, MonthlyAmount), Image(goals, MonthlyAmount));
  }

  /** The plan's goals are ordered by priority and then by deadline. */
  lemma PlanOrder(age: real, income: real, currentSavings: real, goals: seq<Goal>)
    ensures var gs := PlanFinances(age, income, currentSavings, goals).prioritizedGoals;
      forall i, j :: 0 <= i < j < |gs| ==>
        Rank(gs[i].goal.priority) > Rank(gs[j].goal.priority)
        || (gs[i].goal.priority == gs[j].goal.priority && gs[i].goal.timeframe <= gs[j].goal.timeframe)
  {
    var gs := PlanFinances(age, income, currentSavings, goals).prioritizedGoals;
    var ps := Prioritize(goals);
    PrioritizeOrder(goals);
    assert Image(gs, GoalOf) == ps;
    forall i | 0 <= i < |gs|
      ensures gs[i].goal == ps[i]
    {
      assert Image(gs, GoalOf)[i] == GoalOf(gs[i]);
    }
  }

  /** When every goal has a timeframe the total is the exact sum of the
      monthly amounts, and it decides the revision message. */
  lemma DatedGoalsTotal(age: real, income: real, currentSavings: real, goals: seq<Goal>)
    requires forall i :: 0 <= i < |goals| ==> goals[i].timeframe != 0.0
    ensures var r := PlanFinances(age, income, currentSavings, goals);
      && r.totalMonthlyForGoals == Finite(SumBy(Image(goals, MonthlyAmount), FiniteValue))
      && (ReviseGoals in r.recommendations <==> SumBy(Image(goals, MonthlyAmount), FiniteValue) > income * GoalShare)
  {
    FiniteSum(Image(goals, MonthlyAmount));
  }

  /** A goal without a timeframe and with a positive target makes the total
      infinite, and the revision message appears, as long as no other goal
      without a timeframe has a zero or negative target (either would turn
      the total into NaN). */
  lemma UndatedGoal(age: real, income: real, currentSavings: real, goals: seq<Goal>, k: nat)
    requires k < |goals| && goals[k].timeframe == 0.0 && goals[k].targetAmount > 0.0
    requires forall i :: 0 <= i < |goals| ==> goals[i].timeframe != 0.0 || goals[i].targetAmount > 0.0
    ensures var r := PlanFinances(age, income, currentSavings, goals);
      && r.totalMonthlyForGoals == PlusInfinity
      && ReviseGoals in r.recommendations
  {
    var ms := Image(goals, MonthlyAmount);
    SumClassified(ms);
    assert ms[k] == PlusInfinity;
    assert NaN !in ms && MinusInfinity !in ms;
  }
}
