/** The savings-goal tracker: per-goal progress and time to goal, the
    overall totals, and the three status counters of the overview. */
module GoalsTracker {
  import opened Wrappers
  import opened Numeric

  datatype Priority = High | Medium | Low

  datatype Status = OnTrack | Behind | Ahead | Completed

  /** A goal; `deadline` is the deadline's timestamp in milliseconds (UTC). */
  datatype Goal = Goal(
    id: string,
    title: string,
    targetAmount: real,
    currentAmount: real,
    deadline: int,
    category: string,
    priority: Priority,
    status: Status)

  /** The four goals shown when none are supplied. */
  const DefaultGoals: seq<Goal> := [
    Goal("1", "Apport pour appartement", 50000.0, 28500.0, 1748736000000, "Immobilier", High, OnTrack),
    Goal("2", "Fonds d'urgence", 12000.0, 8400.0, 1735603200000, "Sécurité", High, Ahead),
    Goal("3", "Voyage au Japon", 4500.0, 1200.0, 1741996800000, "Loisirs", Medium, Behind),
    Goal("4", "Formation développement", 8000.0, 5600.0, 1725148800000, "Éducation", Medium, OnTrack)
  ]

  /** The list the tracker displays: the supplied goals, or the defaults
      exactly when none are supplied. */
  function ShownGoals(initialGoals: seq<Goal>): (goals: seq<Goal>)
    ensures initialGoals != [] ==> goals == initialGoals
    ensures initialGoals == [] ==> goals == DefaultGoals && |goals| == 4
  {
    if |initialGoals| > 0 then initialGoals else DefaultGoals
  }

  // ---------------------------------------------------------------------
  // One goal

  /** `calculateProgress`: the percentage reached, capped at 100. With a
      zero target JavaScript divides by zero: a positive amount gives
      Infinity, capped to 100, while zero gives NaN and a negative amount
      -Infinity, neither of them a number the bar can show (`None`). */
  function CalculateProgress(current: real, target: real): (p: Option<real>)
    ensures p.Some? ==> p.value <= 100.0
    ensures p.None? <==> target == 0.0 && current <= 0.0
    ensures target > 0.0 && current < target ==> p == Some(current / target * 100.0)
    ensures target > 0.0 && current >= target ==> p == Some(100.0)
    ensures target > 0.0 && current >= 0.0 ==> p.Some? && 0.0 <= p.value
  {
    if target == 0.0 then
      (if current > 0.0 then Some(100.0) else None)
    else
      Some(Min(current / target * 100.0, 100.0))
  }

  /** The month the deadline arithmetic uses: thirty days, in milliseconds. */
  const MillisecondsPerMonth: int := 1000 * 60 * 60 * 24 * 30

  /** The default monthly contribution of `getTimeToGoal`. */
  const DefaultContribution: real := 300.0

  datatype TimeInfo = TimeInfo(monthsNeeded: int, monthsUntilDeadline: int, isOnTrack: bool)

  /** `getTimeToGoal`, with the current time `now` as a parameter: the
      whole months of contributions still needed, the whole (thirty-day)
      months left before the deadline, and whether the first fits in the second. */
  function GetTimeToGoal(deadline: int, now: int, currentAmount: real, targetAmount: real,
                         monthlyContribution: real): (t: TimeInfo)
    requires monthlyContribution > 0.0
    ensures (t.monthsNeeded as real - 1.0) * monthlyContribution < targetAmount - currentAmount
            <= t.monthsNeeded as real * monthlyContribution
    ensures (t.monthsUntilDeadline - 1) * MillisecondsPerMonth < deadline - now
            <= t.monthsUntilDeadline * MillisecondsPerMonth
    ensures t.isOnTrack <==> t.monthsNeeded <= t.monthsUntilDeadline
    ensures currentAmount >= targetAmount ==> t.monthsNeeded <= 0
  {
    var remaining := targetAmount - currentAmount;
    var monthsNeeded := Ceil(remaining / monthlyContribution);
    var monthsUntilDeadline := Ceil((deadline - now) as real / MillisecondsPerMonth as real);
    CeilScaled(remaining, monthlyContribution);
    CeilScaled((deadline - now) as real, MillisecondsPerMonth as real);
    TimeInfo(monthsNeeded, monthsUntilDeadline, monthsNeeded <= monthsUntilDeadline)
  }

  /** `Math.ceil(x / d)` is the least `n` with `x <= n·d`. */
  lemma CeilScaled(x: real, d: real)
    requires d > 0.0
    ensures (Ceil(x / d) as real - 1.0) * d < x <= Ceil(x / d) as real * d
  {
    CeilBetween(x, d, Ceil(x / d) as real);
  }

  /** A number `n` with `x/d ≤ n < x/d + 1` brackets `x` between
      `(n − 1)·d` and `n·d`. */
  lemma CeilBetween(x: real, d: real, n: real)
    requires d > 0.0 && x / d <= n < x / d + 1.0
    ensures (n - 1.0) * d < x <= n * d
  {
    var m, q := n - 1.0, x / d;
    assert m * d < q * d;
    assert q * d <= n * d;
    assert q * d == x;
  }

  /** Scaling by a positive factor keeps the order of two numbers. */
  lemma ScaleOrdered(a: real, b: real, d: real)
    requires d > 0.0
    ensures a <= b ==> a * d <= b * d
    ensures a < b ==> a * d < b * d
  {
  }

  /** The line under a goal: the months still needed when on track,
      otherwise the delay in months. */
  datatype Schedule = MonthsRequired(months: int) | MonthsLate(months: int)

  function ScheduleText(t: TimeInfo): Schedule {
    if t.isOnTrack then MonthsRequired(t.monthsNeeded) else MonthsLate(t.monthsNeeded - t.monthsUntilDeadline)
  }

  /** A goal reported late is late by at least one month. */
  lemma LateMeansAtLeastOneMonth(t: TimeInfo)
    requires t.isOnTrack <==> t.monthsNeeded <= t.monthsUntilDeadline
    ensures ScheduleText(t).MonthsLate? ==> ScheduleText(t).months >= 1
  {
  }

  /** A goal whose amount is reached is on track while its deadline has not
      passed; once the deadline lies a month or more behind `now`, even a
      reached goal is reported late. */
  lemma ReachedGoalSchedule(deadline: int, now: int, currentAmount: real, targetAmount: real,
                            monthlyContribution: real)
    requires monthlyContribution > 0.0 && currentAmount >= targetAmount
    ensures deadline >= now ==> GetTimeToGoal(deadline, now, currentAmount, targetAmount, monthlyContribution).isOnTrack
    ensures currentAmount == targetAmount && deadline <= now - MillisecondsPerMonth ==>
      !GetTimeToGoal(deadline, now, currentAmount, targetAmount, monthlyContribution).isOnTrack
  {
    var t := GetTimeToGoal(deadline, now, currentAmount, targetAmount, monthlyContribution);
    if currentAmount == targetAmount {
      if t.monthsNeeded >= 1 {
        ScaleOrdered(0.0, t.monthsNeeded as real - 1.0, monthlyContribution);
      }
      if t.monthsNeeded < 0 {
        ScaleOrdered(t.monthsNeeded as real, -1.0, monthlyContribution);
      }
      assert t.monthsNeeded == 0;
    }
  }

  // ---------------------------------------------------------------------
  // The overview

  /** `totalSaved`: the current amounts summed. */
  function TotalSaved(goals: seq<Goal>): real {
    if goals == [] then 0.0 else TotalSaved(goals[..|goals| - 1]) + goals[|goals| - 1].currentAmount
  }

  /** `totalTarget`: the target amounts summed. */
  function TotalTarget(goals: seq<Goal>): real {
    if goals == [] then 0.0 else TotalTarget(goals[..|goals| - 1]) + goals[|goals| - 1].targetAmount
  }

  /** `overallProgress`: the saved share of the total target in percent, 0
      when the total target is not positive. */
  function OverallProgress(goals: seq<Goal>): (p: real)
    ensures TotalTarget(goals) <= 0.0 ==> p == 0.0
    ensures TotalTarget(goals) > 0.0 ==> p * TotalTarget(goals) == TotalSaved(goals) * 100.0
  {
    var target := TotalTarget(goals);
    if target > 0.0 then TotalSaved(goals) / target * 100.0 else 0.0
  }

  /** Every goal has a non-negative amount not above its target. */
  predicate Consistent(goals: seq<Goal>) {
    forall i :: 0 <= i < |goals| ==> 0.0 <= goals[i].currentAmount <= goals[i].targetAmount
  }

  lemma {:induction false} TotalsOrdered(goals: seq<Goal>)
    requires Consistent(goals)
    ensures 0.0 <= TotalSaved(goals) <= TotalTarget(goals)
  {
    if goals != [] {
      TotalsOrdered(goals[..|goals| - 1]);
    }
  }

  /** When every goal is consistent, the overall bar lies between 0 and 100. */
  lemma OverallProgressBounded(goals: seq<Goal>)
    requires Consistent(goals)
    ensures 0.0 <= OverallProgress(goals) <= 100.0
  {
    TotalsOrdered(goals);
    var target := TotalTarget(goals);
    if target > 0.0 {
      QuotientAtMostOne(TotalSaved(goals), target);
    }
  }

  /** The number of goals whose status is one of `statuses`. */
  function CountStatus(goals: seq<Goal>, statuses: set<Status>): (n: nat)
    ensures n <= |goals|
  {
    if goals == [] then 0
    else CountStatus(goals[..|goals| - 1], statuses) + (if goals[|goals| - 1].status in statuses then 1 else 0)
  }

  function StatusIn(statuses: set<Status>): Goal -> bool {
    (g: Goal) => g.status in statuses
  }

  /** The count is the length of the source's filter on the status. */
  lemma {:induction false} CountStatusIsFilterLength(goals: seq<Goal>, statuses: set<Status>)
    ensures CountStatus(goals, statuses) == |IndicesWhere(goals, StatusIn(statuses))|
  {
    if goals != [] {
      CountStatusIsFilterLength(goals[..|goals| - 1], statuses);
      IndicesWhereSnoc(goals, StatusIn(statuses));
    }
  }

  /** The three counters: reached or ahead, on track, late. */
  function AheadOrCompletedCount(goals: seq<Goal>): nat {
    CountStatus(goals, {Completed, Ahead})
  }

  function OnTrackCount(goals: seq<Goal>): nat {
    CountStatus(goals, {OnTrack})
  }

  function BehindCount(goals: seq<Goal>): nat {
    CountStatus(goals, {Behind})
  }

  /** Every goal is counted by exactly one of the three counters. */
  lemma {:induction false} CountsPartitionGoals(goals: seq<Goal>)
    ensures AheadOrCompletedCount(goals) + OnTrackCount(goals) + BehindCount(goals) == |goals|
  {
    if goals != [] {
      var init, last := goals[..|goals| - 1], goals[|goals| - 1];
      CountsPartitionGoals(init);
      assert AheadOrCompletedCount(goals) == AheadOrCompletedCount(init) + (if last.status in {Completed, Ahead} then 1 else 0);
      assert OnTrackCount(goals) == OnTrackCount(init) + (if last.status in {OnTrack} then 1 else 0);
      assert BehindCount(goals) == BehindCount(init) + (if last.status in {Behind} then 1 else 0);
      assert |init| + 1 == |goals|;
      match last.status
      case OnTrack =>
      case Behind =>
      case Ahead =>
      case Completed =>
    }
  }

  /** The default list: 43 700 saved of 74 500, one goal ahead, two on
      track and one late. */
  lemma DefaultOverview()
    ensures TotalSaved(DefaultGoals) == 43700.0 && TotalTarget(DefaultGoals) == 74500.0
    ensures AheadOrCompletedCount(DefaultGoals) == 1
    ensures OnTrackCount(DefaultGoals) == 2 && BehindCount(DefaultGoals) == 1
  {
    var g := DefaultGoals;
    assert g[..1][..0] == [];
    assert g[..2][..1] == g[..1];
    assert g[..3][..2] == g[..2];
    assert g[..|g| - 1] == g[..3];
    assert TotalSaved(g[..1]) == 28500.0 && TotalTarget(g[..1]) == 50000.0;
    assert TotalSaved(g[..2]) == 36900.0 && TotalTarget(g[..2]) == 62000.0;
    assert TotalSaved(g[..3]) == 38100.0 && TotalTarget(g[..3]) == 66500.0;
    assert AheadOrCompletedCount(g[..1]) == 0 && OnTrackCount(g[..1]) == 1 && BehindCount(g[..1]) == 0;
    assert AheadOrCompletedCount(g[..2]) == 1 && OnTrackCount(g[..2]) == 1 && BehindCount(g[..2]) == 0;
    assert AheadOrCompletedCount(g[..3]) == 1 && OnTrackCount(g[..3]) == 1 && BehindCount(g[..3]) == 1;
  }
}
