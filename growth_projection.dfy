/** The dashboard's 24-month projection: savings, expenses and income grow
    monthly at one of three scenario rates from fixed bases, and each month
    records the rounded values and a net worth. */
module GrowthProjection {
  import opened Numeric

  const BaseSavings: real := 400.0
  const BaseExpenses: real := 2200.0
  const BaseIncome: real := 3200.0

  /** The annual growth rates and the probability (in percent) of one scenario. */
  datatype Scenario = Scenario(
    key: string,
    name: string,
    savingsGrowth: real,
    expenseGrowth: real,
    incomeGrowth: real,
    probability: int)

  /** The three scenarios, in the order of the scenario object. */
  const Scenarios: seq<Scenario> := [
    Scenario("pessimistic", "Scénario Prudent", 0.02, 0.04, 0.01, 20),
    Scenario("realistic", "Scénario Réaliste", 0.05, 0.03, 0.03, 60),
    Scenario("optimistic", "Scénario Optimiste", 0.08, 0.02, 0.05, 20)
  ]

  datatype Entry = Entry(month: int, savings: int, expenses: int, income: int, netWorth: int)

  /** A running value after `k` monthly multiplications by `1 + rate/12`. */
  function Grown(base: real, rate: real, k: nat): real {
    if k == 0 then base else Grown(base, rate, k - 1) * (1.0 + rate / 12.0)
  }

  /** The entry pushed after month `k` (counted from 1). */
  function EntryAt(s: Scenario, k: nat): Entry {
    var savings := Grown(BaseSavings, s.savingsGrowth, k);
    var expenses := Grown(BaseExpenses, s.expenseGrowth, k);
    var income := Grown(BaseIncome, s.incomeGrowth, k);
    Entry(k, Round(savings), Round(expenses), Round(income), Round((income - expenses) * k as real))
  }

  /** `generateProjection`: multiply the three running values in place each
      month and push the rounded entry. */
  method GenerateProjection(s: Scenario, months: nat) returns (projection: seq<Entry>)
    ensures |projection| == months
    ensures forall i :: 0 <= i < months ==> projection[i] == EntryAt(s, i + 1)
    ensures forall i :: 0 <= i < months ==> projection[i].month == i + 1
  {
    projection := [];
    var currentSavings := BaseSavings;
    var currentExpenses := BaseExpenses;
    var currentIncome := BaseIncome;
    var i := 0;
    while i < months
      invariant 0 <= i <= months
      invariant currentSavings == Grown(BaseSavings, s.savingsGrowth, i)
      invariant currentExpenses == Grown(BaseExpenses, s.expenseGrowth, i)
      invariant currentIncome == Grown(BaseIncome, s.incomeGrowth, i)
      invariant |projection| == i
      invariant forall j :: 0 <= j < i ==> projection[j] == EntryAt(s, j + 1)
    {
      currentSavings := currentSavings * (1.0 + s.savingsGrowth / 12.0);
      currentExpenses := currentExpenses * (1.0 + s.expenseGrowth / 12.0);
      currentIncome := currentIncome * (1.0 + s.incomeGrowth / 12.0);
      projection := projection + [Entry(i + 1, Round(currentSavings), Round(currentExpenses),
        Round(currentIncome), Round((currentIncome - currentExpenses) * (i + 1) as real))];
      i := i + 1;
    }
  }

  /** The running value is the base compounded `k` times: `base·(1 + g/12)^k`. */
  lemma {:induction false} GrownIsCompounded(base: real, rate: real, k: nat)
    ensures Grown(base, rate, k) == base * Pow(1.0 + rate / 12.0, k)
  {
    if k > 0 {
      GrownIsCompounded(base, rate, k - 1);
    }
  }

  /** With a non-negative base and rate the running value never decreases. */
  lemma {:induction false} GrownNonDecreasing(base: real, rate: real, k: nat)
    requires base >= 0.0 && rate >= 0.0
    ensures 0.0 <= Grown(base, rate, k) <= Grown(base, rate, k + 1)
  {
    if k > 0 {
      GrownNonDecreasing(base, rate, k - 1);
    }
    var v := Grown(base, rate, k);
    assert v * (1.0 + rate / 12.0) >= v * 1.0;
  }

  lemma {:induction false} GrownMonotone(base: real, rate: real, j: nat, k: nat)
    requires base >= 0.0 && rate >= 0.0 && j <= k
    ensures Grown(base, rate, j) <= Grown(base, rate, k)
    decreases k - j
  {
    if j < k {
      GrownNonDecreasing(base, rate, j);
      GrownMonotone(base, rate, j + 1, k);
    }
  }

  /** With non-negative growth rates the rounded savings, expenses and income
      never decrease from one month to a later one. */
  lemma RoundedSeriesNonDecreasing(s: Scenario, j: nat, k: nat)
    requires s.savingsGrowth >= 0.0 && s.expenseGrowth >= 0.0 && s.incomeGrowth >= 0.0
    requires j <= k
    ensures EntryAt(s, j).savings <= EntryAt(s, k).savings
    ensures EntryAt(s, j).expenses <= EntryAt(s, k).expenses
    ensures EntryAt(s, j).income <= EntryAt(s, k).income
  {
    GrownMonotone(BaseSavings, s.savingsGrowth, j, k);
    GrownMonotone(BaseExpenses, s.expenseGrowth, j, k);
    GrownMonotone(BaseIncome, s.incomeGrowth, j, k);
    RoundMonotone(Grown(BaseSavings, s.savingsGrowth, j), Grown(BaseSavings, s.savingsGrowth, k));
    RoundMonotone(Grown(BaseExpenses, s.expenseGrowth, j), Grown(BaseExpenses, s.expenseGrowth, k));
    RoundMonotone(Grown(BaseIncome, s.incomeGrowth, j), Grown(BaseIncome, s.incomeGrowth, k));
  }

  /** The monthly margin after `k` months in closed form. */
  function ClosedMargin(s: Scenario, k: nat): real {
    BaseIncome * Pow(1.0 + s.incomeGrowth / 12.0, k) - BaseExpenses * Pow(1.0 + s.expenseGrowth / 12.0, k)
  }

  /** The net worth of month `k` is the rounded `k`-fold monthly margin of
      the unrounded running income and expenses, not of the rounded ones. */
  lemma NetWorthFromRunningValues(s: Scenario, k: nat)
    ensures EntryAt(s, k).netWorth == Round(ClosedMargin(s, k) * k as real)
  {
    GrownIsCompounded(BaseIncome, s.incomeGrowth, k);
    GrownIsCompounded(BaseExpenses, s.expenseGrowth, k);
  }

  datatype ScenarioProjection = ScenarioProjection(scenario: Scenario, projection: seq<Entry>)

  function SumProbabilities(ss: seq<Scenario>): int {
    if ss == [] then 0 else SumProbabilities(ss[..|ss| - 1]) + ss[|ss| - 1].probability
  }

  /** The three probabilities 20, 60 and 20 add up to 100, and every growth
      rate of the table is non-negative. */
  lemma ScenarioTable()
    ensures |Scenarios| == 3 && SumProbabilities(Scenarios) == 100
    ensures forall i :: 0 <= i < 3 ==>
      Scenarios[i].savingsGrowth >= 0.0 && Scenarios[i].expenseGrowth >= 0.0 && Scenarios[i].incomeGrowth >= 0.0
  {
    var ss := Scenarios;
    assert ss[..1][..0] == [];
    assert SumProbabilities(ss[..1]) == 20;
    assert ss[..2][..1] == ss[..1];
    assert SumProbabilities(ss[..2]) == 80;
    assert ss[..|ss| - 1] == ss[..2];
  }

  /** `generatePredictions`: one 24-month projection per scenario, in order. */
  method GeneratePredictions() returns (data: seq<ScenarioProjection>)
    ensures |data| == |Scenarios|
    ensures forall i :: 0 <= i < |data| ==>
      data[i].scenario == Scenarios[i]
      && |data[i].projection| == 24
      && forall m :: 0 <= m < 24 ==> data[i].projection[m] == EntryAt(Scenarios[i], m + 1)
  {
    data := [];
    var i := 0;
    while i < |Scenarios|
      invariant 0 <= i <= |Scenarios|
      invariant |data| == i
      invariant forall j :: 0 <= j < i ==>
        data[j].scenario == Scenarios[j]
        && |data[j].projection| == 24
        && forall m :: 0 <= m < 24 ==> data[j].projection[m] == EntryAt(Scenarios[j], m + 1)
    {
      var projection := GenerateProjection(Scenarios[i], 24);
      data := data + [ScenarioProjection(Scenarios[i], projection)];
      i := i + 1;
    }
  }
}
