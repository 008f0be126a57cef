/** The financial health index card: the level named for a score, the
    four factor gauges with their status, and the one recommendation
    sentence chosen by the score's band. */
module HealthIndex {
  import opened Wrappers

  datatype HealthLevel = HealthLevel(level: string, color: string, bgColor: string)

  const Excellent := HealthLevel("Excellente", "text-success", "bg-success/10")
  const Good := HealthLevel("Bonne", "text-warning", "bg-warning/10")
  const Average := HealthLevel("Moyenne", "text-accent", "bg-accent/10")
  const ToImprove := HealthLevel("À améliorer", "text-destructive", "bg-destructive/10")

  /** The levels from worst to best. */
  const Levels: seq<HealthLevel> := [ToImprove, Average, Good, Excellent]

  /** `getHealthLevel`: the first threshold among 80, 60 and 40 that the
      score reaches picks the level. */
  function GetHealthLevel(score: real): (l: HealthLevel)
    ensures l in Levels
    ensures l == Excellent <==> score >= 80.0
    ensures l == Good <==> 60.0 <= score < 80.0
    ensures l == Average <==> 40.0 <= score < 60.0
    ensures l == ToImprove <==> score < 40.0
  {
    if score >= 80.0 then Excellent
    else if score >= 60.0 then Good
    else if score >= 40.0 then Average
    else ToImprove
  }

  /** The position of a level in `Levels`. */
  function Rank(l: HealthLevel): (r: int)
    requires l in Levels
    ensures 0 <= r < |Levels| && Levels[r] == l
  {
    if l == ToImprove then 0 else if l == Average then 1 else if l == Good then 2 else 3
  }

  /** A higher score never gets a worse level. */
  lemma LevelMonotone(s: real, t: real)
    requires s <= t
    ensures Rank(GetHealthLevel(s)) <= Rank(GetHealthLevel(t))
  {
  }

  // ---------------------------------------------------------------------
  // Factors

  /** The fields the factors read; a missing field is `None`. */
  datatype Data = Data(
    savingsRate: Option<real>,
    debtToIncomeRatio: Option<real>,
    emergencyFundMonths: Option<real>,
    diversificationScore: Option<real>)

  datatype FactorStatus = GoodStatus | WarningStatus | BadStatus

  datatype Factor = Factor(name: string, value: real, target: real, unit: string, status: FactorStatus)

  /** `x || 0`: a missing value (or a NaN, from multiplying a missing one)
      falls back to 0; zero is 0 either way. */
  function OrZero(x: Option<real>): (v: real)
    ensures x.None? ==> v == 0.0
    ensures x.Some? ==> v == x.value
  {
    if x.Some? then x.value else 0.0
  }

  /** The four gauges: savings rate, debt ratio in percent, emergency fund
      in months and diversification score, each with its target. */
  function HealthFactors(data: Data): (fs: seq<Factor>)
    ensures |fs| == 4
    ensures fs[0].status == GoodStatus <==> OrZero(data.savingsRate) >= 20.0
    ensures fs[0].status != BadStatus
    ensures fs[1].status == GoodStatus <==> OrZero(data.debtToIncomeRatio) <= 0.3
    ensures fs[1].status != WarningStatus
    ensures fs[2].status == GoodStatus <==> OrZero(data.emergencyFundMonths) >= 3.0
    ensures fs[2].status != BadStatus && fs[2].target == 6.0
    ensures fs[3].status == GoodStatus <==> OrZero(data.diversificationScore) >= 70.0
    ensures fs[3].status != BadStatus && fs[3].target == 80.0
  {
    var savings := OrZero(data.savingsRate);
    var debt := OrZero(data.debtToIncomeRatio) * 100.0;
    var emergency := OrZero(data.emergencyFundMonths);
    var diversification := OrZero(data.diversificationScore);
    [ Factor("Ratio Épargne/Revenus", savings, 20.0, "%", if savings >= 20.0 then GoodStatus else WarningStatus),
      Factor("Ratio Dettes/Revenus", debt, 30.0, "%", if debt <= 30.0 then GoodStatus else BadStatus),
      Factor("Fonds d'Urgence", emergency, 6.0, " mois", if emergency >= 3.0 then GoodStatus else WarningStatus),
      Factor("Diversification", diversification, 80.0, "%", if diversification >= 70.0 then GoodStatus else WarningStatus) ]
  }

  /** With no data every gauge reads 0: the debt gauge is then good, the
      three others are warnings; an emergency fund of 3 to 6 months is
      good although it is below the displayed target. */
  lemma MissingDataFactors()
    ensures var fs := HealthFactors(Data(None, None, None, None));
      fs[0].status == WarningStatus && fs[1].status == GoodStatus
      && fs[2].status == WarningStatus && fs[3].status == WarningStatus
    ensures var fs := HealthFactors(Data(None, None, Some(4.0), None));
      fs[2].status == GoodStatus && fs[2].value < fs[2].target
  {
  }

  // ---------------------------------------------------------------------
  // Recommendation

  const FocusOnDebt := "Concentrez-vous sur la réduction des dettes et l'augmentation de l'épargne d'urgence."
  const KeepGoing := "Continuez vos efforts et diversifiez vos investissements."
  const Optimise := "Optimisez votre stratégie fiscale et augmentez votre épargne retraite."
  const Explore := "Excellente santé financière ! Explorez des investissements plus sophistiqués."

  function When(condition: bool, sentence: string): seq<string> {
    if condition then [sentence] else []
  }

  /** The four conditional sentences, in the order they are rendered. */
  function Recommendations(score: real): (r: seq<string>)
    ensures |r| == 1
  {
    When(score < 40.0, FocusOnDebt)
    + When(score >= 40.0 && score < 60.0, KeepGoing)
    + When(score >= 60.0 && score < 80.0, Optimise)
    + When(score >= 80.0, Explore)
  }

  /** Exactly one sentence is rendered for any score, and it is the one of
      the score's level. */
  lemma ExactlyOneRecommendation(score: real)
    ensures |Recommendations(score)| == 1
    ensures var l := GetHealthLevel(score);
      Recommendations(score)[0] == (if l == ToImprove then FocusOnDebt
                                    else if l == Average then KeepGoing
                                    else if l == Good then Optimise
                                    else Explore)
  {
  }
}
