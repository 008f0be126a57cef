/** The "what if" scenario explorer: a change-intensity slider (0–100)
    scales a scenario's largest monthly reduction, and a horizon slider
    (1–36 months) turns it into savings, a timeline, milestones and a
    comparison with things the saving could pay for. */
module ScenarioExplorer {
  import opened Wrappers
  import opened Numeric

  datatype ComparisonItem = ComparisonItem(name: string, value: int)

  datatype ScenarioData = ScenarioData(
    title: string,
    currentAmount: int,
    maxReduction: int,
    description: string,
    unit: string,
    comparisonItems: seq<ComparisonItem>)

  const Coffee := ScenarioData("Réduire les cafés quotidiens", 150, 130,
    "Impact de la réduction de vos achats de café", "€/mois",
    [ComparisonItem("1 week-end à la mer", 150), ComparisonItem("Abonnement gym", 45),
     ComparisonItem("2 repas restaurant", 60)])

  const Salary := ScenarioData("Augmentation de salaire", 3200, 640,
    "Impact d'une augmentation sur votre budget", "€/mois",
    [ComparisonItem("Loyer plus grand appart", 300), ComparisonItem("Voiture électrique", 400),
     ComparisonItem("Épargne retraite", 200)])

  const Transport := ScenarioData("Optimiser les transports", 280, 200,
    "Économies avec transports alternatifs", "€/mois",
    [ComparisonItem("1 voyage par trimestre", 250), ComparisonItem("Équipement sportif", 100),
     ComparisonItem("Cours en ligne", 50)])

  /** The scenario of an id. An unknown id leaves the scenario undefined
      and the first read of `maxReduction` throws; that is the error here. */
  function LookupScenario(scenarioId: string): (r: Result<ScenarioData, string>)
    ensures r.Ok? <==> scenarioId in {"coffee", "salary", "transport"}
    ensures r.Ok? ==> r.value.maxReduction > 0 && |r.value.comparisonItems| == 3
  {
    match scenarioId
    case "coffee" => Ok(Coffee)
    case "salary" => Ok(Salary)
    case "transport" => Ok(Transport)
    case _ => Err("maxReduction of undefined")
  }

  /** A slider position of the intensity slider (0 to 100, step 1). */
  predicate IsIntensity(slider: int) { 0 <= slider <= 100 }

  /** `currentImpact`: the rounded share `slider`% of the largest reduction. */
  function CurrentImpact(slider: int, maxReduction: int): (impact: int)
    ensures IsIntensity(slider) && maxReduction >= 0 ==> 0 <= impact <= maxReduction
    ensures slider == 0 ==> impact == 0
    ensures slider == 100 ==> impact == maxReduction
  {
    RoundedShareBounds(slider, maxReduction);
    Round(slider as real / 100.0 * maxReduction as real)
  }

  lemma RoundedShareBounds(slider: int, maxReduction: int)
    ensures IsIntensity(slider) && maxReduction >= 0 ==>
      0 <= Round(slider as real / 100.0 * maxReduction as real) <= maxReduction
    ensures slider == 0 ==> Round(slider as real / 100.0 * maxReduction as real) == 0
    ensures slider == 100 ==> Round(slider as real / 100.0 * maxReduction as real) == maxReduction
  {
    var exact := slider as real / 100.0 * maxReduction as real;
    RoundOfInteger(0);
    RoundOfInteger(maxReduction);
    if IsIntensity(slider) && maxReduction >= 0 {
      MulMonotone(0.0, slider as real / 100.0, 0.0, maxReduction as real);
      MulMonotone(slider as real / 100.0, 1.0, maxReduction as real, maxReduction as real);
      RoundMonotone(0.0, exact);
      RoundMonotone(exact, maxReduction as real);
    }
  }

  /** Moving the intensity slider up never lowers the monthly impact. */
  lemma ImpactMonotone(s: int, t: int, maxReduction: int)
    requires s <= t && maxReduction >= 0
    ensures CurrentImpact(s, maxReduction) <= CurrentImpact(t, maxReduction)
  {
    var gap := t as real / 100.0 - s as real / 100.0;
    MulMonotone(0.0, gap, 0.0, maxReduction as real);
    assert t as real / 100.0 * maxReduction as real == s as real / 100.0 * maxReduction as real + gap * maxReduction as real;
    RoundMonotone(s as real / 100.0 * maxReduction as real, t as real / 100.0 * maxReduction as real);
  }

  /** `projectedSavings`: the monthly impact over the whole horizon. */
  function ProjectedSavings(impact: int, horizon: int): (total: int)
    ensures impact >= 0 && horizon >= 1 ==> total >= impact
    ensures horizon >= 1 ==> total - impact == impact * (horizon - 1)
  {
    impact * horizon
  }

  // ---------------------------------------------------------------------
  // Levels

  datatype ImpactLevel = ImpactLevel(min: int, max: int, title: string, color: string, bgColor: string)

  const ImpactLevels: seq<ImpactLevel> := [
    ImpactLevel(0, 25, "Changement doux", "text-blue-500", "bg-blue-500/10"),
    ImpactLevel(26, 50, "Effort modéré", "text-yellow-500", "bg-yellow-500/10"),
    ImpactLevel(51, 75, "Engagement sérieux", "text-orange-500", "bg-orange-500/10"),
    ImpactLevel(76, 100, "Transformation totale", "text-red-500", "bg-red-500/10")
  ]

  predicate InLevel(slider: int, l: ImpactLevel) {
    slider >= l.min && slider <= l.max
  }

  /** `Array.find`: the index of the first level holding the slider. */
  function FindLevel(levels: seq<ImpactLevel>, slider: int): (i: Option<nat>)
    ensures i.Some? ==> (i.value < |levels| && InLevel(slider, levels[i.value])
                         && forall j :: 0 <= j < i.value ==> !InLevel(slider, levels[j]))
    ensures i.None? ==> forall j :: 0 <= j < |levels| ==> !InLevel(slider, levels[j])
  {
    if levels == [] then None
    else if InLevel(slider, levels[0]) then Some(0)
    else match FindLevel(levels[1..], slider)
      case None => None
      case Some(k) => Some(k + 1)
  }

  /** `getCurrentLevel`: the first matching level, or the first level. */
  function GetCurrentLevel(slider: int): (l: ImpactLevel)
    ensures l in ImpactLevels
    ensures (InLevel(slider, l) || l == ImpactLevels[0])
  {
    match FindLevel(ImpactLevels, slider)
    case Some(i) => ImpactLevels[i]
    case None => ImpactLevels[0]
  }

  /** Every slider position lies in exactly one level, which is therefore
      the level shown; any other value shows the first level. */
  lemma LevelsPartitionSlider(slider: int)
    ensures IsIntensity(slider) ==>
      exists i :: 0 <= i < |ImpactLevels| && InLevel(slider, ImpactLevels[i])
        && GetCurrentLevel(slider) == ImpactLevels[i]
        && forall j :: 0 <= j < |ImpactLevels| && j != i ==> !InLevel(slider, ImpactLevels[j])
    ensures !IsIntensity(slider) ==> GetCurrentLevel(slider) == ImpactLevels[0]
  {
    var i := if slider <= 25 then 0 else if slider <= 50 then 1 else if slider <= 75 then 2 else 3;
    if IsIntensity(slider) {
      assert InLevel(slider, ImpactLevels[i]);
    }
  }

  // ---------------------------------------------------------------------
  // Timeline, milestones, comparison

  datatype TimelinePoint = TimelinePoint(month: int, cumulative: int, monthly: int)

  /** `getTimelineData`: one point per month, at most 24 (and none for a
      negative length, which `Array.from` clamps to 0). */
  function TimelineData(impact: int, months: int): (points: seq<TimelinePoint>)
    ensures |points| == MaxInt(0, MinInt(months, 24))
    ensures forall i :: 0 <= i < |points| ==> points[i].month == i + 1 && points[i].monthly == impact
    ensures forall i :: 0 < i < |points| ==> points[i].cumulative == points[i - 1].cumulative + impact
    ensures |points| > 0 ==> points[0].cumulative == impact
  {
    seq(MaxInt(0, MinInt(months, 24)), i => TimelinePoint(i + 1, impact * (i + 1), impact))
  }

  /** The timeline's last point is the projected saving when the horizon
      is at most two years, and stops at two years otherwise. */
  lemma TimelineEndsAtProjection(impact: int, months: int)
    requires 1 <= months
    ensures var points := TimelineData(impact, months);
      points[|points| - 1].cumulative == ProjectedSavings(impact, MinInt(months, 24))
  {
  }

  /** The milestones shown: those of 3, 6, 12 and 24 months within the horizon. */
  function Milestones(horizon: int): (ms: seq<int>)
    ensures forall m :: m in ms <==> m in {3, 6, 12, 24} && m <= horizon
    ensures forall i, j :: 0 <= i < j < |ms| ==> ms[i] < ms[j]
  {
    Filter([3, 6, 12, 24], horizon)
  }

  function Filter(candidates: seq<int>, horizon: int): (ms: seq<int>)
    ensures forall m :: m in ms <==> m in candidates && m <= horizon
    ensures forall i :: 0 <= i < |ms| ==> exists j :: 0 <= j < |candidates| && ms[i] == candidates[j]
    ensures (forall i, j :: 0 <= i < j < |candidates| ==> candidates[i] < candidates[j]) ==>
            forall i, j :: 0 <= i < j < |ms| ==> ms[i] < ms[j]
  {
    if candidates == [] then []
    else
      var rest := Filter(candidates[1..], horizon);
      if candidates[0] <= horizon then [candidates[0]] + rest else rest
  }

  /** A comparison item is marked "Possible" when the monthly saving covers it. */
  predicate Possible(impact: int, item: ComparisonItem) {
    impact >= item.value
  }

  /** Once possible, an item stays possible as the intensity rises. */
  lemma PossibleStaysPossible(s: int, t: int, scenario: ScenarioData, item: ComparisonItem)
    requires s <= t && scenario.maxReduction >= 0
    requires Possible(CurrentImpact(s, scenario.maxReduction), item)
    ensures Possible(CurrentImpact(t, scenario.maxReduction), item)
  {
    ImpactMonotone(s, t, scenario.maxReduction);
  }

  /** The coffee scenario can never afford its first item, a 150 € weekend,
      since its largest reduction is 130 €. */
  lemma CoffeeWeekendOutOfReach(slider: int)
    requires IsIntensity(slider)
    ensures !Possible(CurrentImpact(slider, Coffee.maxReduction), Coffee.comparisonItems[0])
  {
  }

  /** The displayed success probability, in percent: 100 − slider/2. */
  function SuccessProbability(slider: int): (p: real)
    ensures IsIntensity(slider) ==> 50.0 <= p <= 100.0
    ensures p == 100.0 <==> slider == 0
  {
    100.0 - slider as real / 2.0
  }

  /** A stronger change is announced as less likely to succeed. */
  lemma SuccessProbabilityDecreasing(s: int, t: int)
    requires s <= t
    ensures SuccessProbability(t) <= SuccessProbability(s)
  {
  }
}
