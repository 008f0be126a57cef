/** The advanced simulator's savings projection: a monthly compound-interest
    recurrence with a checkpoint every twelve months, deflated by inflation,
    and the four fixed what-if scenarios classified by how close their final
    amount comes to the target. */
module AdvancedSimulator {
  import opened Numeric

  /** The numeric simulation parameters; `timeHorizon` is in whole years. */
  datatype Parameters = Parameters(
    targetAmount: real,
    timeHorizon: nat,
    initialAmount: real,
    monthlyContribution: real,
    expectedReturn: real,
    inflationRate: real)

  datatype Point = Point(year: nat, nominalValue: real, realValue: real, contributions: real, gains: real)

  /** The balance after `month` months: each month after the first applies
      the monthly rate (annual percentage / 100 / 12) and adds the contribution. */
  function AmountAt(p: Parameters, month: nat): real {
    if month == 0 then p.initialAmount
    else Grow(AmountAt(p, month - 1), MonthlyRate(p), p.monthlyContribution)
  }

  function MonthlyRate(p: Parameters): real {
    p.expectedReturn / 100.0 / 12.0
  }

  /** One month: interest on the balance, then the contribution. */
  function Grow(amount: real, monthlyRate: real, contribution: real): real {
    amount * (1.0 + monthlyRate) + contribution
  }

  /** The inflation factor `(1 + inflation/100)^year`. */
  function Deflator(p: Parameters, year: nat): real {
    Pow(1.0 + p.inflationRate / 100.0, year)
  }

  /** The checkpoint of year `year`. */
  function PointAt(p: Parameters, year: nat): (pt: Point)
    requires p.inflationRate > -100.0
    ensures pt.year == year && pt.nominalValue == AmountAt(p, 12 * year)
    ensures pt.realValue * Deflator(p, year) == pt.nominalValue
    ensures pt.contributions == p.initialAmount + p.monthlyContribution * (12 * year) as real
    ensures pt.nominalValue == pt.contributions + pt.gains
  {
    CheckPoint(p, year, AmountAt(p, 12 * year))
  }

  /** The point recorded for `year` with balance `amount`. */
  function CheckPoint(p: Parameters, year: nat, amount: real): (pt: Point)
    requires p.inflationRate > -100.0
    ensures pt.realValue * Deflator(p, year) == amount
  {
    PowPositive(1.0 + p.inflationRate / 100.0, year);
    var contributions := p.initialAmount + p.monthlyContribution * (12 * year) as real;
    Point(year, amount, amount / Deflator(p, year), contributions, amount - contributions)
  }

  /** `calculateCompoundInterest`: months 0 to 12·H, recording a point
      whenever the month is a multiple of 12. */
  method CalculateCompoundInterest(p: Parameters) returns (progression: seq<Point>)
    requires p.inflationRate > -100.0
    ensures |progression| == p.timeHorizon + 1
    ensures forall y :: 0 <= y < |progression| ==> progression[y] == PointAt(p, y)
  {
    var monthlyRate := p.expectedReturn / 100.0 / 12.0;
    var months := p.timeHorizon * 12;
    var amount := p.initialAmount;
    progression := [];
    var month := 0;
    while month <= months
      invariant 0 <= month <= months + 1
      invariant amount == AmountAt(p, if month == 0 then 0 else month - 1)
      invariant |progression| == (month + 11) / 12
      invariant forall y :: 0 <= y < |progression| ==> progression[y] == PointAt(p, y)
    {
      if month > 0 {
        amount := Grow(amount, monthlyRate, p.monthlyContribution);
      }
      RecordStep(|progression|, month);
      if month % 12 == 0 {
        var year := month / 12;
        progression := progression + [CheckPoint(p, year, amount)];
      }
      month := month + 1;
    }
  }

  /** How many checkpoints precede month `month`, and how many follow it. */
  lemma RecordStep(count: nat, month: nat)
    requires count == (month + 11) / 12
    ensures month % 12 == 0 ==> count == month / 12 && month == 12 * (month / 12)
    ensures month % 12 == 0 ==> (month + 12) / 12 == count + 1
    ensures month % 12 != 0 ==> (month + 12) / 12 == count
  {
  }

  /** The first checkpoint holds the initial amount, all of it contributed,
      with no gain, and is not deflated. */
  lemma FirstPoint(p: Parameters)
    requires p.inflationRate > -100.0
    ensures PointAt(p, 0).nominalValue == p.initialAmount == PointAt(p, 0).contributions
    ensures PointAt(p, 0).realValue == p.initialAmount && PointAt(p, 0).gains == 0.0
  {
  }

  /** With non-negative inputs the balance never decreases and stays non-negative. */
  lemma {:induction false} AmountNonDecreasing(p: Parameters, month: nat)
    requires p.initialAmount >= 0.0 && p.monthlyContribution >= 0.0 && p.expectedReturn >= 0.0
    ensures 0.0 <= AmountAt(p, month) <= AmountAt(p, month + 1)
  {
    if month > 0 {
      AmountNonDecreasing(p, month - 1);
    }
    var a := AmountAt(p, month);
    var g := 1.0 + MonthlyRate(p);
    assert a * g >= a * 1.0;
  }

  /** At a zero rate the balance is exactly what was paid in. */
  lemma {:induction false} ZeroRateIsContributions(p: Parameters, month: nat)
    requires p.expectedReturn == 0.0
    ensures AmountAt(p, month) == p.initialAmount + p.monthlyContribution * month as real
  {
    if month > 0 {
      ZeroRateIsContributions(p, month - 1);
    }
  }

  /** With no inflation or more, the real value never exceeds a non-negative
      nominal value. */
  lemma RealValueAtMostNominal(p: Parameters, year: nat)
    requires p.inflationRate >= 0.0 && AmountAt(p, 12 * year) >= 0.0
    ensures PointAt(p, year).realValue <= PointAt(p, year).nominalValue
  {
    var d := Deflator(p, year);
    PowAtLeastOne(1.0 + p.inflationRate / 100.0, year);
    var pt := PointAt(p, year);
    assert pt.realValue * d == pt.nominalValue;
  }

  /** A higher rate or contribution, from the same non-negative start, never
      gives a smaller balance. */
  lemma {:induction false} AmountMonotone(p: Parameters, q: Parameters, month: nat)
    requires p.initialAmount == q.initialAmount && p.initialAmount >= 0.0
    requires 0.0 <= p.expectedReturn <= q.expectedReturn
    requires 0.0 <= p.monthlyContribution <= q.monthlyContribution
    ensures AmountAt(p, month) <= AmountAt(q, month)
  {
    if month > 0 {
      AmountMonotone(p, q, month - 1);
      AmountNonDecreasing(p, month - 1);
      GrowMonotone(AmountAt(p, month - 1), AmountAt(q, month - 1), MonthlyRate(p), MonthlyRate(q),
        p.monthlyContribution, q.monthlyContribution);
    }
  }

  /** One month from a larger balance, at a higher rate, with a larger
      contribution, ends no lower. */
  lemma GrowMonotone(a: real, b: real, r: real, s: real, c: real, d: real)
    requires 0.0 <= a <= b && 0.0 <= r <= s && c <= d
    ensures Grow(a, r, c) <= Grow(b, s, d)
  {
    MulMonotone(a, b, 1.0 + r, 1.0 + s);
  }

  // ---------------------------------------------------------------------
  // Scenarios

  datatype Feasibility = Excellent | Good | Challenging | Unrealistic

  datatype Scenario = Scenario(name: string, returnModifier: real, contributionModifier: real)

  const Scenarios: seq<Scenario> := [
    Scenario("Optimiste", 1.2, 1.1),
    Scenario("Réaliste", 1.0, 1.0),
    Scenario("Conservateur", 0.8, 0.9),
    Scenario("Pessimiste", 0.6, 0.8)
  ]

  datatype ScenarioResult = ScenarioResult(
    scenario: string,
    finalAmount: real,
    totalContributions: real,
    totalGains: real,
    feasibility: Feasibility)

  /** The base parameters with only the return and the contribution scaled. */
  function Modified(p: Parameters, s: Scenario): (q: Parameters)
    ensures q.targetAmount == p.targetAmount && q.timeHorizon == p.timeHorizon
    ensures q.initialAmount == p.initialAmount && q.inflationRate == p.inflationRate
    ensures q.expectedReturn == p.expectedReturn * s.returnModifier
    ensures q.monthlyContribution == p.monthlyContribution * s.contributionModifier
  {
    p.(expectedReturn := p.expectedReturn * s.returnModifier,
       monthlyContribution := p.monthlyContribution * s.contributionModifier)
  }

  /** `final / target × 100` classified first-match at 100, 80 and 60. A zero
      target makes the score +Infinity for a positive final amount and NaN or
      -Infinity otherwise, so only a positive final amount is excellent. */
  function Classify(finalAmount: real, target: real): Feasibility {
    if target == 0.0 then (if finalAmount > 0.0 then Excellent else Unrealistic)
    else
      var score := finalAmount / target * 100.0;
      if score >= 100.0 then Excellent
      else if score >= 80.0 then Good
      else if score >= 60.0 then Challenging
      else Unrealistic
  }

  function Rank(f: Feasibility): nat {
    match f
    case Excellent => 3
    case Good => 2
    case Challenging => 1
    case Unrealistic => 0
  }

  /** For a positive target a larger final amount is never classified worse. */
  lemma ClassifyMonotone(a: real, b: real, target: real)
    requires target > 0.0 && a <= b
    ensures Rank(Classify(a, target)) <= Rank(Classify(b, target))
  {
    assert a / target <= b / target;
  }

  /** The final checkpoint of one scenario. */
  function RunScenario(p: Parameters, s: Scenario): (r: ScenarioResult)
    requires p.inflationRate > -100.0
    ensures r.scenario == s.name
    ensures r.finalAmount == AmountAt(Modified(p, s), 12 * p.timeHorizon)
    ensures r.finalAmount == r.totalContributions + r.totalGains
    ensures r.feasibility == Classify(r.finalAmount, p.targetAmount)
  {
    var last := PointAt(Modified(p, s), p.timeHorizon);
    ScenarioResult(s.name, last.nominalValue, last.contributions, last.gains,
      Classify(last.nominalValue, p.targetAmount))
  }

  /** `generateScenarios`: the four scenarios in their fixed order. */
  function GenerateScenarios(p: Parameters): (rs: seq<ScenarioResult>)
    requires p.inflationRate > -100.0
    ensures |rs| == 4
    ensures forall i :: 0 <= i < 4 ==> rs[i] == RunScenario(p, Scenarios[i])
  {
    seq(4, i requires 0 <= i < 4 => RunScenario(p, Scenarios[i]))
  }

  /** With non-negative inputs the scenarios come out ordered: Optimiste,
      Réaliste, Conservateur, Pessimiste, by final amount and by feasibility. */
  lemma ScenariosOrdered(p: Parameters)
    requires p.inflationRate > -100.0
    requires p.initialAmount >= 0.0 && p.monthlyContribution >= 0.0 && p.expectedReturn >= 0.0
    requires p.targetAmount > 0.0
    ensures var rs := GenerateScenarios(p);
      forall i, j :: 0 <= i < j < 4 ==>
        rs[j].finalAmount <= rs[i].finalAmount && Rank(rs[j].feasibility) <= Rank(rs[i].feasibility)
  {
    var rs := GenerateScenarios(p);
    AdjacentOrdered(p, 0);
    AdjacentOrdered(p, 1);
    AdjacentOrdered(p, 2);
    assert rs[3].finalAmount <= rs[2].finalAmount <= rs[1].finalAmount <= rs[0].finalAmount;
    forall i, j | 0 <= i < j < 4
      ensures rs[j].finalAmount <= rs[i].finalAmount && Rank(rs[j].feasibility) <= Rank(rs[i].feasibility)
    {
      ClassifyMonotone(rs[j].finalAmount, rs[i].finalAmount, p.targetAmount);
    }
  }

  /** Each scenario ends no higher than the one before it. */
  lemma AdjacentOrdered(p: Parameters, k: nat)
    requires k < 3
    requires p.initialAmount >= 0.0 && p.monthlyContribution >= 0.0 && p.expectedReturn >= 0.0
    ensures AmountAt(Modified(p, Scenarios[k + 1]), 12 * p.timeHorizon)
         <= AmountAt(Modified(p, Scenarios[k]), 12 * p.timeHorizon)
  {
    var a, b := Scenarios[k + 1], Scenarios[k];
    ModifiedOrdered(p, a, b);
    AmountMonotone(Modified(p, a), Modified(p, b), 12 * p.timeHorizon);
  }

  /** Smaller modifiers give a smaller return and contribution. */
  lemma ModifiedOrdered(p: Parameters, a: Scenario, b: Scenario)
    requires p.monthlyContribution >= 0.0 && p.expectedReturn >= 0.0
    requires 0.0 <= a.returnModifier <= b.returnModifier && 0.0 <= a.contributionModifier <= b.contributionModifier
    ensures 0.0 <= Modified(p, a).expectedReturn <= Modified(p, b).expectedReturn
    ensures 0.0 <= Modified(p, a).monthlyContribution <= Modified(p, b).monthlyContribution
  {
    var r, c := p.expectedReturn, p.monthlyContribution;
    assert 0.0 <= r * a.returnModifier <= r * b.returnModifier;
    assert 0.0 <= c * a.contributionModifier <= c * b.contributionModifier;
  }
}
