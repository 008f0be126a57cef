/** The advanced dashboard's headline metrics over a date window and its
    health score: four tiered components (savings rate, emergency fund,
    budget adherence, hidden-fee impact) added up, rounded and capped at 100,
    with the labels and colours that render it. */
module AdvancedDashboard {
  import opened Wrappers
  import opened Ledger
  import opened Numeric

  datatype Metrics = Metrics(income: real, expenses: real, balance: real, savingsRate: real, hiddenFees: real)

  /** A budget line with its amounts already parsed; a missing amount is 0. */
  datatype BudgetCategory = BudgetCategory(actualAmount: real, budgetedAmount: real)

  /** The selection the metrics sum over: on or after `startDate` (no upper
      bound), in the chosen category unless it is "all", and not a hidden fee
      unless hidden fees are shown. */
  predicate Selected(t: Transaction, startDate: int, category: string, showHiddenFees: bool) {
    t.date >= startDate
    && (category == "all" || t.categoryId == category)
    && (showHiddenFees || !t.isHiddenFee)
  }

  predicate HiddenSince(t: Transaction, startDate: int) {
    t.isHiddenFee && t.date >= startDate
  }

  /** `calculateMetrics`: the window is filtered first and then split by type;
      hidden fees are summed over the whole list. */
  function CalculateMetrics(ts: seq<Transaction>, startDate: int, category: string, showHiddenFees: bool): (m: Metrics)
    ensures m.income == SumIf(ts, t => Selected(t, startDate, category, showHiddenFees) && IsIncome(t))
    ensures m.expenses == SumIf(ts, t => Selected(t, startDate, category, showHiddenFees) && IsExpense(t))
    ensures m.balance == m.income - m.expenses
    ensures m.income > 0.0 ==> m.savingsRate == m.balance / m.income * 100.0
    ensures m.income <= 0.0 ==> m.savingsRate == 0.0
    ensures m.hiddenFees == SumIf(ts, t => HiddenSince(t, startDate))
  {
    var window := Keep(ts, t => Selected(t, startDate, category, showHiddenFees));
    var income := SumIf(window, IsIncome);
    var expenses := SumIf(window, IsExpense);
    var hiddenFees := SumIf(ts, t => HiddenSince(t, startDate));
    var balance := income - expenses;
    SumOfKept(ts, t => Selected(t, startDate, category, showHiddenFees), IsIncome,
      t => Selected(t, startDate, category, showHiddenFees) && IsIncome(t));
    SumOfKept(ts, t => Selected(t, startDate, category, showHiddenFees), IsExpense,
      t => Selected(t, startDate, category, showHiddenFees) && IsExpense(t));
    Metrics(income, expenses, balance, if income > 0.0 then balance / income * 100.0 else 0.0, hiddenFees)
  }

  /** The hidden-fee total ignores the category filter and the show flag. */
  lemma HiddenFeesIgnoreFilters(ts: seq<Transaction>, startDate: int, c1: string, s1: bool, c2: string, s2: bool)
    ensures CalculateMetrics(ts, startDate, c1, s1).hiddenFees == CalculateMetrics(ts, startDate, c2, s2).hiddenFees
  {
  }

  /** Showing hidden fees adds exactly the hidden income of the window to the
      income shown without them. */
  lemma ShowingHiddenFeesAddsThem(ts: seq<Transaction>, startDate: int, category: string)
    ensures CalculateMetrics(ts, startDate, category, true).income
         == CalculateMetrics(ts, startDate, category, false).income
          + SumIf(ts, t => Selected(t, startDate, category, true) && IsIncome(t) && t.isHiddenFee)
  {
    SumIfSplit(ts, t => Selected(t, startDate, category, true) && IsIncome(t),
      t => Selected(t, startDate, category, false) && IsIncome(t),
      t => Selected(t, startDate, category, true) && IsIncome(t) && t.isHiddenFee);
  }

  /** With non-negative amounts and positive income the savings rate is at most 100. */
  lemma SavingsRateAtMost100(ts: seq<Transaction>, startDate: int, category: string, showHiddenFees: bool)
    requires AllNonNegative(ts)
    requires CalculateMetrics(ts, startDate, category, showHiddenFees).income > 0.0
    ensures CalculateMetrics(ts, startDate, category, showHiddenFees).savingsRate <= 100.0
  {
    var m := CalculateMetrics(ts, startDate, category, showHiddenFees);
    SumIfNonNegative(ts, t => Selected(t, startDate, category, showHiddenFees) && IsExpense(t));
    assert m.expenses >= 0.0;
    assert m.balance <= m.income;
    QuotientAtMostOne(m.balance, m.income);
  }

  // ---------------------------------------------------------------------
  // Health score

  /** Up to 40 points for the savings rate: all of them from 20%, none
      for a negative rate. */
  function SavingsPoints(savingsRate: real): (p: real)
    ensures 0.0 <= p <= 40.0
    ensures p == 40.0 <==> savingsRate >= 20.0
    ensures p == 0.0 <==> savingsRate < 0.0
  {
    if savingsRate >= 20.0 then 40.0
    else if savingsRate >= 10.0 then 20.0
    else if savingsRate >= 0.0 then 10.0
    else 0.0
  }

  /** Months of expenses the emergency fund covers; 0 without expenses. */
  function EmergencyMonths(emergencyFund: Option<real>, expenses: real): real {
    var fund := if emergencyFund.Some? then emergencyFund.value else 0.0;
    if expenses > 0.0 then fund / expenses else 0.0
  }

  /** Up to 20 points for the reserve: all of them from six months of
      expenses, none below one month. */
  function EmergencyPoints(months: real): (p: real)
    ensures 0.0 <= p <= 20.0
    ensures p == 20.0 <==> months >= 6.0
    ensures p == 0.0 <==> months < 1.0
  {
    if months >= 6.0 then 20.0
    else if months >= 3.0 then 15.0
    else if months >= 1.0 then 10.0
    else 0.0
  }

  predicate WithinBudget(c: BudgetCategory) {
    c.budgetedAmount > 0.0 && c.actualAmount <= c.budgetedAmount * 1.1
  }

  function CountWithinBudget(cs: seq<BudgetCategory>): (n: nat)
    ensures n <= |cs|
  {
    if cs == [] then 0
    else CountWithinBudget(cs[..|cs| - 1]) + (if WithinBudget(cs[|cs| - 1]) then 1 else 0)
  }

  /** The count is the length of the source's filter on the 110% test. */
  lemma {:induction false} CountWithinBudgetIsFilterLength(cs: seq<BudgetCategory>)
    ensures CountWithinBudget(cs) == |IndicesWhere(cs, WithinBudget)|
  {
    if cs != [] {
      CountWithinBudgetIsFilterLength(cs[..|cs| - 1]);
      IndicesWhereSnoc(cs, WithinBudget);
    }
  }

  /** The share of categories kept within 110% of a positive budget. */
  function BudgetAdherence(cs: seq<BudgetCategory>): (r: real)
    ensures 0.0 <= r <= 1.0
    ensures cs == [] ==> r == 0.0
  {
    CountWithinBudget(cs) as real / MaxInt(|cs|, 1) as real
  }

  /** Hidden fees as a percentage of income; 0 without income. */
  function FeeImpact(m: Metrics): real {
    if m.income > 0.0 then m.hiddenFees / m.income * 100.0 else 0.0
  }

  /** Up to 20 points for the hidden-fee impact: all of them below 1% of
      income, none from 5%. */
  function FeePoints(impact: real): (p: real)
    ensures 0.0 <= p <= 20.0
    ensures p == 20.0 <==> impact < 1.0
    ensures p == 0.0 <==> impact >= 5.0
  {
    if impact < 1.0 then 20.0
    else if impact < 3.0 then 15.0
    else if impact < 5.0 then 10.0
    else 0.0
  }

  /** The sum of the four components before rounding: at most 100, which
      it reaches exactly when every component is at its best. */
  function RawHealthScore(m: Metrics, emergencyFund: Option<real>, budgets: seq<BudgetCategory>): (r: real)
    ensures 0.0 <= r <= 100.0
    ensures r == 100.0 <==>
      m.savingsRate >= 20.0 && EmergencyMonths(emergencyFund, m.expenses) >= 6.0
      && BudgetAdherence(budgets) == 1.0 && FeeImpact(m) < 1.0
  {
    assert 0.0 <= BudgetAdherence(budgets) * 20.0 <= 20.0;
    SavingsPoints(m.savingsRate) + EmergencyPoints(EmergencyMonths(emergencyFund, m.expenses))
    + BudgetAdherence(budgets) * 20.0 + FeePoints(FeeImpact(m))
  }

  /** `calculateHealthScore`, accumulating the components into a running score. */
  method CalculateHealthScore(m: Metrics, emergencyFund: Option<real>, budgets: seq<BudgetCategory>) returns (score: int)
    ensures 0 <= score <= 100
    ensures score == MinInt(Round(RawHealthScore(m, emergencyFund, budgets)), 100)
  {
    var s := 0.0;
    if m.savingsRate >= 20.0 {
      s := s + 40.0;
    } else if m.savingsRate >= 10.0 {
      s := s + 20.0;
    } else if m.savingsRate >= 0.0 {
      s := s + 10.0;
    }
    assert s == SavingsPoints(m.savingsRate);

    var fund := if emergencyFund.Some? then emergencyFund.value else 0.0;
    var months := if m.expenses > 0.0 then fund / m.expenses else 0.0;
    if months >= 6.0 {
      s := s + 20.0;
    } else if months >= 3.0 {
      s := s + 15.0;
    } else if months >= 1.0 {
      s := s + 10.0;
    }
    ghost var emergency := SavingsPoints(m.savingsRate) + EmergencyPoints(EmergencyMonths(emergencyFund, m.expenses));
    assert s == emergency;

    var within := 0;
    var i := 0;
    while i < |budgets|
      invariant 0 <= i <= |budgets|
      invariant within == CountWithinBudget(budgets[..i])
    {
      assert budgets[..i + 1][..i] == budgets[..i];
      if budgets[i].budgetedAmount > 0.0 && budgets[i].actualAmount <= budgets[i].budgetedAmount * 1.1 {
        within := within + 1;
      }
      i := i + 1;
    }
    assert budgets[..i] == budgets;
    s := s + within as real / MaxInt(|budgets|, 1) as real * 20.0;
    assert s == emergency + BudgetAdherence(budgets) * 20.0;

    var impact := if m.income > 0.0 then m.hiddenFees / m.income * 100.0 else 0.0;
    if impact < 1.0 {
      s := s + 20.0;
    } else if impact < 3.0 {
      s := s + 15.0;
    } else if impact < 5.0 {
      s := s + 10.0;
    }

    HealthScoreInRange(m, emergencyFund, budgets);
    score := MinInt(Round(s), 100);
  }

  /** The raw score lies in [0, 100], so rounding and the cap give an integer
      score in the same range. */
  lemma HealthScoreInRange(m: Metrics, emergencyFund: Option<real>, budgets: seq<BudgetCategory>)
    ensures 0.0 <= RawHealthScore(m, emergencyFund, budgets) <= 100.0
    ensures 0 <= MinInt(Round(RawHealthScore(m, emergencyFund, budgets)), 100) <= 100
  {
    var raw := RawHealthScore(m, emergencyFund, budgets);
    assert 0.0 <= BudgetAdherence(budgets) * 20.0 <= 20.0;
    RoundMonotone(0.0, raw);
    RoundOfInteger(0);
  }

  /** Without income the fee component gives its full 20 points and the
      savings component 10. */
  lemma NoIncomeComponents(ts: seq<Transaction>, startDate: int, category: string, showHiddenFees: bool)
    requires CalculateMetrics(ts, startDate, category, showHiddenFees).income == 0.0
    ensures FeePoints(FeeImpact(CalculateMetrics(ts, startDate, category, showHiddenFees))) == 20.0
    ensures SavingsPoints(CalculateMetrics(ts, startDate, category, showHiddenFees).savingsRate) == 10.0
  {
  }

  /** Each component is monotone in its measure: a higher savings rate, more
      months of reserve or a lower fee impact never lowers the score. */
  lemma ComponentsMonotone(r1: real, r2: real, e1: real, e2: real, f1: real, f2: real)
    requires r1 <= r2 && e1 <= e2 && f1 <= f2
    ensures SavingsPoints(r1) <= SavingsPoints(r2)
    ensures EmergencyPoints(e1) <= EmergencyPoints(e2)
    ensures FeePoints(f2) <= FeePoints(f1)
  {
  }

  // ---------------------------------------------------------------------
  // Presentation

  /** Green from 80, red below 60, yellow between. */
  function HealthScoreColor(score: real): (c: string)
    ensures c == "text-green-600" <==> score >= 80.0
    ensures c == "text-red-600" <==> score < 60.0
    ensures c in {"text-green-600", "text-yellow-600", "text-red-600"}
  {
    if score >= 80.0 then "text-green-600"
    else if score >= 60.0 then "text-yellow-600"
    else "text-red-600"
  }

  /** One of four labels, by bands of 20 points from 40 up. */
  function HealthScoreText(score: real): (t: string)
    ensures t == "Excellente" <==> score >= 80.0
    ensures t == "À améliorer" <==> score < 40.0
    ensures t in {"Excellente", "Bonne", "Moyenne", "À améliorer"}
  {
    if score >= 80.0 then "Excellente"
    else if score >= 60.0 then "Bonne"
    else if score >= 40.0 then "Moyenne"
    else "À améliorer"
  }

  /** The colour and the label agree: green exactly for "Excellente", yellow
      exactly for "Bonne", red for the two lower labels. */
  lemma ColorMatchesText(score: real)
    ensures HealthScoreColor(score) == "text-green-600" <==> HealthScoreText(score) == "Excellente"
    ensures HealthScoreColor(score) == "text-yellow-600" <==> HealthScoreText(score) == "Bonne"
    ensures HealthScoreColor(score) == "text-red-600"
        <==> HealthScoreText(score) in {"Moyenne", "À améliorer"}
  {
  }
}
