/** The main dashboard's financial health score: a base of 50 moved by
    three bonuses and two penalties, then clamped to [0, 100]. */
module DashboardScore {
  import opened Wrappers
  import opened Numeric

  /** A field of the user's data as JavaScript sees it: absent
      (`undefined`), `null`, or a number. */
  datatype Field = Missing | Null | Num(value: real)

  /** The number a relational comparison converts the field to: `null`
      becomes 0, while `undefined` becomes NaN, which fails every
      comparison. */
  function AsNumber(f: Field): (n: Option<real>)
    ensures n.None? <==> f.Missing?
    ensures f.Null? ==> n == Some(0.0)
    ensures f.Num? ==> n == Some(f.value)
  {
    match f
    case Missing => None
    case Null => Some(0.0)
    case Num(v) => Some(v)
  }

  /** The fields the score reads. */
  datatype Profile = Profile(
    savings: Field,
    debtToIncomeRatio: Field,
    emergencyFund: Field,
    monthlyDeficit: Field)

  predicate Above(x: Field, bound: real) {
    AsNumber(x).Some? && AsNumber(x).value > bound
  }

  predicate Below(x: Field, bound: real) {
    AsNumber(x).Some? && AsNumber(x).value < bound
  }

  predicate AtLeast(x: Field, bound: real) {
    AsNumber(x).Some? && AsNumber(x).value >= bound
  }

  /** The conditions of the five adjustments. */
  predicate HasSavings(d: Profile) { Above(d.savings, 0.0) }
  predicate LowDebt(d: Profile) { Below(d.debtToIncomeRatio, 0.3) }
  predicate HasEmergencyFund(d: Profile) { AtLeast(d.emergencyFund, 3.0) }
  predicate InDeficit(d: Profile) { Above(d.monthlyDeficit, 0.0) }
  predicate HighDebt(d: Profile) { Above(d.debtToIncomeRatio, 0.5) }

  function Points(condition: bool, points: int): int {
    if condition then points else 0
  }

  /** The score before the clamp: the base plus each adjustment whose
      condition holds. It never leaves [15, 100], since the two debt
      adjustments exclude each other; without a penalty it is at least the
      base, and with both penalties at most the base. */
  function RawScore(d: Profile): (score: int)
    ensures 15 <= score <= 100
    ensures !InDeficit(d) && !HighDebt(d) ==> score >= 50
    ensures InDeficit(d) && HighDebt(d) ==> score <= 50
  {
    DebtAdjustmentsExclusive(d);
    50 + Points(HasSavings(d), 20) + Points(LowDebt(d), 15) + Points(HasEmergencyFund(d), 15)
       - Points(InDeficit(d), 20) - Points(HighDebt(d), 15)
  }

  /** The debt bonus and the debt penalty never both apply, and a ratio in
      [0.3, 0.5] triggers neither. */
  lemma DebtAdjustmentsExclusive(d: Profile)
    ensures !(LowDebt(d) && HighDebt(d))
    ensures d.debtToIncomeRatio.Num? && 0.3 <= d.debtToIncomeRatio.value <= 0.5 ==> !LowDebt(d) && !HighDebt(d)
  {
  }

  /** `calculateHealthScore`: adjust a running score condition by
      condition, then clamp it; the clamp never changes the score. */
  method CalculateHealthScore(d: Profile) returns (result: int)
    ensures result == RawScore(d)
    ensures 0 <= result <= 100
  {
    var score := 50;
    if HasSavings(d) {
      score := score + 20;
    }
    if LowDebt(d) {
      score := score + 15;
    }
    if HasEmergencyFund(d) {
      score := score + 15;
    }
    if InDeficit(d) {
      score := score - 20;
    }
    if HighDebt(d) {
      score := score - 15;
    }
    result := MaxInt(0, MinInt(100, score));
  }

  /** Every adjustment moves the score in its own direction: gaining
      savings, an emergency fund or a lower debt ratio never lowers it,
      and falling into deficit never raises it. */
  lemma RawScoreMonotone(d: Profile, e: Profile)
    requires HasSavings(d) ==> HasSavings(e)
    requires LowDebt(d) ==> LowDebt(e)
    requires HasEmergencyFund(d) ==> HasEmergencyFund(e)
    requires InDeficit(e) ==> InDeficit(d)
    requires HighDebt(e) ==> HighDebt(d)
    ensures RawScore(d) <= RawScore(e)
  {
  }

  /** The best profile scores 100 and the worst 15; a profile with every
      field missing keeps the base of 50, while one with every field `null`
      earns the low-debt bonus, since `null < 0.3`, and scores 65. */
  lemma ScoreExtremes()
    ensures RawScore(Profile(Num(1.0), Num(0.0), Num(3.0), Num(0.0))) == 100
    ensures RawScore(Profile(Num(0.0), Num(0.6), Num(0.0), Num(1.0))) == 15
    ensures RawScore(Profile(Missing, Missing, Missing, Missing)) == 50
    ensures RawScore(Profile(Null, Null, Null, Null)) == 65
  {
  }

  /** A `null` field scores exactly as the number 0 would, and a missing
      field as one that meets no condition at all. */
  lemma NullIsZero(d: Profile)
    ensures RawScore(d.(debtToIncomeRatio := Null)) == RawScore(d.(debtToIncomeRatio := Num(0.0)))
    ensures RawScore(d.(savings := Null)) == RawScore(d.(savings := Num(0.0)))
    ensures RawScore(d.(debtToIncomeRatio := Missing)) == RawScore(d.(debtToIncomeRatio := Num(0.4)))
  {
  }

  /** The score the dashboard shows: 0 until there is data. */
  function DisplayedScore(data: Option<Profile>): (score: int)
    ensures data.None? ==> score == 0
    ensures data.Some? ==> 15 <= score <= 100
  {
    if data.Some? then RawScore(data.value) else 0
  }
}
