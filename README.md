# Rivela financial explorer — a verified model of its computations

Rivela is a personal-finance web app written in TypeScript and React. A user:

1. asks a question;
2. maps their incomes, expenses, debts and goals;
3. sees a "revelation" of their budget.

Dashboards around this flow compute health scores, detect hidden fees, project savings, forecast trends and export reports. This project models, in Dafny, the computations and small state machines inside those components. It proves what they promise.

Each component becomes one module:

- **Value computation becomes functions.** Sums, scores, classifiers, projections and the text of CSV exports become functions over sequences, maps and exact `real` numbers. Their contracts state what the result means.
- **Loops become methods.** Every source loop that updates variables becomes a `method` with a `while` loop and its invariants. Examples: the compound-interest simulation, the hidden-fee scan, the per-category spending dictionary, the CSV builders, the colour hash and the PDF line placement. Each method is proved equal to the function that specifies it.
- **Fixed sentences become constructors.** The forecasts' recommendations are values of a `Message` datatype, and `PredictiveAnalytics.MessageText` gives the French sentence each one displays. The contracts then speak of which messages appear, in which order.
- **React state becomes classes.** A component whose handlers update React state becomes a `class`. Its fields are that state, and its methods are the handlers, each with `modifies this` and a contract for the new state. These are the landing-page wizard, the mapping questionnaire, the question form, the revelation screen and the simulated fee scan.

Four helper modules hold what several components share:

| helper | contents |
|---|---|
| `Numeric` | `Math.round` and `Math.ceil` through `Floor`, min/max, powers |
| `Ledger` | the transaction record and filtered sums |
| `Ranking` | the stable descending sort that `Array.prototype.sort` performs |
| `Text` | substring search, lower-casing, JavaScript's white space and `trim` |

Behaviours of the source that the model makes explicit:

- **CSV quoting.** The CSV and Excel exports quote descriptions without doubling embedded quotes. A description holding `"` does not read back: `ExportCenter.EmbeddedQuoteBreaksRoundTrip` proves this for every such row.
- **Export extension.** The file extension is the format id, so an Excel export is named `*.excel`.
- **Date range in the PDF.** The PDF summary ignores the chosen date range.
- **Reached but overdue goals.** A goal whose saved amount equals its target counts as late once its deadline is at least a month past. `GoalsTracker.ReachedGoalSchedule` proves both halves.
- **Emergency fund factor.** The health index marks the emergency fund "good" from 3 months, although it displays a target of 6.
- **Lesson completion above 100.** A lesson completion above 100 shows the button "Continuer" with no badge.
- **Hidden fees in the hook.** The dashboard hook counts hidden fees of any transaction type.
- **Advanced dashboard.** Its fee total ignores the category filter and the "show hidden fees" switch.
- **A `null` debt ratio.** The main dashboard compares `null` as 0, so a `null` debt-to-income ratio earns the low-debt bonus: an all-`null` profile scores 65, an empty one 50 (`DashboardScore.ScoreExtremes`).
- **All-zero expenses.** A category whose expenses are all zero has volatility 0/0, which is NaN, so it gets no volatility message (`PredictiveAnalytics.ZeroMeanVolatile`).
- **Overspending.** A category's budget-adherence term is capped at 100, so spending three times the budget scores the same full 100 as spending exactly the budget (`FinancialCalculations.AdherenceTerm`).
- **Colour of an emoji.** The colour hash reads UTF-16 code units, so a character beyond U+FFFF is hashed as its two surrogates (`Utils.SurrogatePairHash`).

## Model

| member | source | states |
|---|---|---|
| HiddenFees.Abs | client/src/components/advanced/HiddenFeesDetector.tsx:110 | the amount a fee carries is non-negative and is the parsed amount or its negation |
| HiddenFees.CountSimilar | client/src/components/advanced/HiddenFeesDetector.tsx:188-192 | the number of similar transactions never exceeds the number of transactions |
| HiddenFees.CountSimilarIsCount | client/src/components/advanced/HiddenFeesDetector.tsx:188-192 | the count equals the length of the filtered list of transactions with another id, the same merchant and an amount within 0.01 |
| HiddenFees.IsRecurring | client/src/components/advanced/HiddenFeesDetector.tsx:183-196 | a recurring transaction has a named merchant and the list holds at least two transactions |
| HiddenFees.RecurringIff | client/src/components/advanced/HiddenFeesDetector.tsx:183-196 | recurring exactly when the merchant name is non-empty and at least two other transactions share merchant and amount (within 0.01) |
| HiddenFees.KeywordConfidence | client/src/components/advanced/HiddenFeesDetector.tsx:121-141 | 0.7 plus the increments for a small amount, a round amount, a fee word and recurrence, capped, lies in [0.7, 1] |
| HiddenFees.PatternEntries | client/src/components/advanced/HiddenFeesDetector.tsx:115-148 | the keyword table yields at most one entry per pattern |
| HiddenFees.ScanPatterns | client/src/components/advanced/HiddenFeesDetector.tsx:115-148 | the loop over the keyword table pushes exactly the entries of the matching patterns, in table order |
| HiddenFees.DetectHiddenFees | client/src/components/advanced/HiddenFeesDetector.tsx:104-181 | the scan of every transaction, then the sort, returns the generated entries ranked by descending confidence, ties in scan order |
| HiddenFees.PatternEntriesShape | client/src/components/advanced/HiddenFeesDetector.tsx:115-148 | every keyword entry carries the transaction's id and absolute amount, a confidence in [0.7, 1], recurrence as checked, and a yearly impact of 12× the amount exactly when recurring |
| HiddenFees.EntriesForShape | client/src/components/advanced/HiddenFeesDetector.tsx:107-177 | a non-expense yields nothing; an expense yields at most six entries (five patterns and one secondary), all well formed and carrying its id |
| HiddenFees.GeneratedShape | client/src/components/advanced/HiddenFeesDetector.tsx:107-177 | every generated entry comes from an expense transaction of the input and is well formed for it; a secondary entry has confidence 0.5, severity low, no recurrence and impact = amount |
| HiddenFees.DetectedFeesRanked | client/src/components/advanced/HiddenFeesDetector.tsx:180 | the result is a permutation of the generated entries, non-increasing in confidence, stable, every entry with confidence in [0.5, 1] and drawn from an expense |
| HiddenFees.FilterFees | client/src/components/advanced/HiddenFeesDetector.tsx:199-204 | every kept fee matches the category unless "all", has amount ≥ the minimum, and with the hidden-only switch has confidence ≥ 0.6 |
| HiddenFees.FilterFeesKeeps | client/src/components/advanced/HiddenFeesDetector.tsx:199-204 | conversely every fee that passes the three tests is kept |
| HiddenFees.OnlyHiddenDropsSecondary | client/src/components/advanced/HiddenFeesDetector.tsx:203 | with the hidden-only switch no secondary (confidence 0.5) entry survives |
| HiddenFees.AverageFeeAmount | client/src/components/advanced/HiddenFeesDetector.tsx:209 | the average fee is 0 when no fee is kept, and otherwise times the number of fees gives their total |
| HiddenFees.CriticalCount | client/src/components/advanced/HiddenFeesDetector.tsx:210 | the number of critical fees never exceeds the number of kept fees |
| HiddenFees.CriticalCountIsFilterLength | client/src/components/advanced/HiddenFeesDetector.tsx:210 | the count equals the number of positions holding a critical fee, the length of the filter |
| HiddenFees.AnnualImpactBoundsTotal | client/src/components/advanced/HiddenFeesDetector.tsx:207-208 | when every fee's yearly impact is its amount or 12× it, with non-negative amounts, 0 ≤ total ≤ annual impact |
| HiddenFees.DisplayedTotalsBound | client/src/components/advanced/HiddenFeesDetector.tsx:207-208 | for the detector's own filtered output, 0 ≤ total hidden fees ≤ annual impact |
| AdvancedDashboard.CalculateMetrics | client/src/components/advanced/AdvancedDashboard.tsx:79-107 | income and expenses sum the transactions on or after the start date, in the category unless "all", hidden fees only when shown; balance = income − expenses; the savings rate is balance/income×100, or 0 when income ≤ 0; hidden fees sum every hidden-fee transaction on or after the start date, whatever the category or show flag |
| AdvancedDashboard.SavingsPoints | client/src/components/advanced/AdvancedDashboard.tsx:160-163 | between 0 and 40: all 40 exactly from a 20% savings rate, none exactly for a negative rate |
| AdvancedDashboard.EmergencyPoints | client/src/components/advanced/AdvancedDashboard.tsx:165-172 | between 0 and 20: all 20 exactly from six months of reserve, none exactly below one month |
| AdvancedDashboard.FeePoints | client/src/components/advanced/AdvancedDashboard.tsx:183-187 | between 0 and 20: all 20 exactly below a 1% fee impact, none exactly from 5% |
| AdvancedDashboard.RawHealthScore | client/src/components/advanced/AdvancedDashboard.tsx:157-187 | the unrounded sum lies in [0, 100] and is 100 exactly when every component is at its best |
| AdvancedDashboard.HiddenFeesIgnoreFilters | client/src/components/advanced/AdvancedDashboard.tsx:99-101 | the hidden-fee total is the same whatever the category filter and the show switch |
| AdvancedDashboard.ShowingHiddenFeesAddsThem | client/src/components/advanced/AdvancedDashboard.tsx:85-93 | showing hidden fees adds exactly the hidden income of the window and category to the income |
| AdvancedDashboard.SavingsRateAtMost100 | client/src/components/advanced/AdvancedDashboard.tsx:103-104 | with non-negative amounts and positive income the savings rate is at most 100 |
| AdvancedDashboard.CountWithinBudget | client/src/components/advanced/AdvancedDashboard.tsx:175-178 | the number of categories within 110% of a positive budget is at most the number of categories |
| AdvancedDashboard.CountWithinBudgetIsFilterLength | client/src/components/advanced/AdvancedDashboard.tsx:175-178 | the count equals the number of positions whose category is within 110% of a positive budget |
| AdvancedDashboard.BudgetAdherence | client/src/components/advanced/AdvancedDashboard.tsx:174-181 | the within-budget share divided by max(count, 1) lies in [0, 1] and is 0 for no categories |
| AdvancedDashboard.CalculateHealthScore | client/src/components/advanced/AdvancedDashboard.tsx:157-190 | the running score of the savings, emergency, budget and fee tiers, rounded and capped at 100, lies in [0, 100] |
| AdvancedDashboard.HealthScoreInRange | client/src/components/advanced/AdvancedDashboard.tsx:157-190 | the unrounded sum of the four tiers lies in [0, 100], so the returned score is an integer in [0, 100] |
| AdvancedDashboard.NoIncomeComponents | client/src/components/advanced/AdvancedDashboard.tsx:183-187 | without income the fee tier gives its full 20 points and the savings tier 10 |
| AdvancedDashboard.ComponentsMonotone | client/src/components/advanced/AdvancedDashboard.tsx:160-187 | the first-match tiers are monotone: a higher savings rate or more emergency months never lose points, a higher fee impact never gains |
| AdvancedDashboard.HealthScoreColor | client/src/components/advanced/AdvancedDashboard.tsx:194-198 | one of three colours: green exactly from 80, red exactly below 60 |
| AdvancedDashboard.HealthScoreText | client/src/components/advanced/AdvancedDashboard.tsx:200-205 | one of four labels: "Excellente" exactly from 80, "À améliorer" exactly below 40 |
| AdvancedDashboard.ColorMatchesText | client/src/components/advanced/AdvancedDashboard.tsx:194-205 | the colour is green exactly for "Excellente", yellow exactly for "Bonne", red for "Moyenne" and "À améliorer" |
| AdvancedSimulator.PointAt | client/src/components/advanced/AdvancedSimulator.tsx:208-217 | a yearly checkpoint holds the balance after 12·year months, its deflated real value, contributions = initial + monthly×12×year, gains = nominal − contributions |
| AdvancedSimulator.CalculateCompoundInterest | client/src/components/advanced/AdvancedSimulator.tsx:195-222 | the monthly loop records horizon + 1 checkpoints, the checkpoint of each year 0..H in order |
| AdvancedSimulator.FirstPoint | client/src/components/advanced/AdvancedSimulator.tsx:200-217 | the first checkpoint holds the initial amount as nominal, real value and contributions, with no gain |
| AdvancedSimulator.AmountNonDecreasing | client/src/components/advanced/AdvancedSimulator.tsx:204-206 | with non-negative initial amount, contribution and rate the balance is non-negative and never decreases month to month |
| AdvancedSimulator.ZeroRateIsContributions | client/src/components/advanced/AdvancedSimulator.tsx:204-206 | at a zero rate the balance is exactly initial + monthly × months |
| AdvancedSimulator.RealValueAtMostNominal | client/src/components/advanced/AdvancedSimulator.tsx:210 | with non-negative inflation and balance the real value is at most the nominal value |
| AdvancedSimulator.AmountMonotone | client/src/components/advanced/AdvancedSimulator.tsx:204-206 | a higher rate or contribution from the same non-negative start never gives a smaller balance |
| AdvancedSimulator.Modified | client/src/components/advanced/AdvancedSimulator.tsx:233-238 | a scenario scales only the return and the contribution; every other parameter is unchanged |
| AdvancedSimulator.ClassifyMonotone | client/src/components/advanced/AdvancedSimulator.tsx:243-248 | for a positive target a larger final amount is never classified worse on the scale unrealistic < challenging < good < excellent |
| AdvancedSimulator.RunScenario | client/src/components/advanced/AdvancedSimulator.tsx:239-256 | a scenario's final amount is the modified balance after the horizon, = contributions + gains, classified by final/target×100 |
| AdvancedSimulator.GenerateScenarios | client/src/components/advanced/AdvancedSimulator.tsx:225-258 | exactly four results, in the fixed order Optimiste, Réaliste, Conservateur, Pessimiste |
| AdvancedSimulator.ScenariosOrdered | client/src/components/advanced/AdvancedSimulator.tsx:226-248 | with non-negative inputs the final amounts and feasibilities are ordered Optimiste ≥ Réaliste ≥ Conservateur ≥ Pessimiste |
| PredictiveAnalytics.SumYOfLine | client/src/components/advanced/PredictiveAnalytics.tsx:186 | on the line y = a + b·x, Σy = a·n + b·Σx |
| PredictiveAnalytics.SumXYOfLine | client/src/components/advanced/PredictiveAnalytics.tsx:187 | on the line y = a + b·x, Σxy = a·Σx + b·Σxx |
| PredictiveAnalytics.LinearDataSlope | client/src/components/advanced/PredictiveAnalytics.tsx:183-191 | exactly linear data y = a + b·x has least-squares trend b |
| PredictiveAnalytics.ConstantDataSlope | client/src/components/advanced/PredictiveAnalytics.tsx:183-191 | constant data has trend 0 |
| PredictiveAnalytics.IndexSums | client/src/components/advanced/PredictiveAnalytics.tsx:185-188 | for x = 0..n−1, Σx = n(n−1)/2 and Σxx = (n−1)n(2n−1)/6 |
| PredictiveAnalytics.IndexDenominatorPositive | client/src/components/advanced/PredictiveAnalytics.tsx:190 | for x = 0..n−1 with n ≥ 2 the slope's denominator n·Σxx − (Σx)² is positive |
| PredictiveAnalytics.SquaredDeviations | client/src/components/advanced/PredictiveAnalytics.tsx:195 | the sum of squared deviations is non-negative |
| PredictiveAnalytics.Variance | client/src/components/advanced/PredictiveAnalytics.tsx:193-196 | the population variance is non-negative |
| PredictiveAnalytics.SumOfConstant | client/src/components/advanced/PredictiveAnalytics.tsx:194-195 | equal values sum to n·c and have no deviation from c |
| PredictiveAnalytics.VarianceOfConstant | client/src/components/advanced/PredictiveAnalytics.tsx:193-196 | equal values have mean c and variance 0 |
| PredictiveAnalytics.MonthlyAverages | client/src/components/advanced/PredictiveAnalytics.tsx:200-213 | twelve averages; a month with transactions averages to a value that times its count gives back its total, a month without any to 0 |
| PredictiveAnalytics.EmptyMonthsSumToZero | client/src/components/advanced/PredictiveAnalytics.tsx:202-206 | a month without transactions has a zero total |
| PredictiveAnalytics.SeasonalFactorScales | client/src/components/advanced/PredictiveAnalytics.tsx:214-216 | the factor times the positive overall average is the current month's average; without a positive overall average it is 1 |
| PredictiveAnalytics.TallyMonths | client/src/components/advanced/PredictiveAnalytics.tsx:200-207 | after the loop, slot m of the two new arrays holds the total and the count of month m's transactions |
| PredictiveAnalytics.CalculateSeasonalFactor | client/src/components/advanced/PredictiveAnalytics.tsx:198-217 | the two twelve-slot arrays filled by the loop give the current month's average over the overall one, or 1 when that is not positive |
| PredictiveAnalytics.SeasonalFactorsAverageOne | client/src/components/advanced/PredictiveAnalytics.tsx:215-216 | when the overall average is positive the twelve month factors sum to 12 |
| PredictiveAnalytics.ExpenseRecommendations | client/src/components/advanced/PredictiveAnalytics.tsx:219-235 | 1 to 3 messages ending with the alert; the increase message iff predicted > 1.1× current, the decrease message iff not and predicted < 0.9× current, never both; the volatility message iff volatility > 0.3, which +Infinity passes and NaN and −Infinity fail |
| PredictiveAnalytics.TimeHorizonMonths | client/src/components/advanced/PredictiveAnalytics.tsx:297-305 | 3months → 3, 1year → 12, 2years → 24, anything else → 6 |
| PredictiveAnalytics.BalanceProjection | client/src/components/advanced/PredictiveAnalytics.tsx:270-285 | exactly `months` points, the first = balance + net, each next one the previous + net |
| PredictiveAnalytics.GenerateBalanceProjection | client/src/components/advanced/PredictiveAnalytics.tsx:270-285 | the loop's running balance produces exactly that projection |
| PredictiveAnalytics.FutureDataPoints | client/src/components/advanced/PredictiveAnalytics.tsx:237-250 | exactly `months` points, the k-th = last value + trend·k |
| PredictiveAnalytics.GenerateFutureDataPoints | client/src/components/advanced/PredictiveAnalytics.tsx:237-250 | the loop produces exactly those points |
| PredictiveAnalytics.IncomePredictionShape | client/src/components/advanced/PredictiveAnalytics.tsx:92-113 | the income forecast has confidence min(0.85, 0.5 + n/20) in [0.65, 0.85], prediction mean + 6·trend, and impact positive iff the trend is positive |
| PredictiveAnalytics.Volatility | client/src/components/advanced/PredictiveAnalytics.tsx:127 | deviation/mean is finite iff the mean is non-zero, and then times the mean gives the deviation back; NaN iff both are zero; otherwise an infinity with the deviation's sign |
| PredictiveAnalytics.ZeroMeanVolatile | client/src/components/advanced/PredictiveAnalytics.tsx:228-230 | with a zero mean the volatility message appears iff the deviation is positive, so an all-zero category (NaN) gets none |
| PredictiveAnalytics.ExpenseConfidence | client/src/components/advanced/PredictiveAnalytics.tsx:139 | max(0.3, 0.9 − volatility) is at least 0.3, is 0.9 − volatility for a finite volatility ≤ 0.6, and 0.3 for a larger one or +Infinity |
| PredictiveAnalytics.PredictIncome | client/src/components/advanced/PredictiveAnalytics.tsx:85-115 | the income block pushes one forecast exactly when there are at least three incomes |
| PredictiveAnalytics.PredictExpense | client/src/components/advanced/PredictiveAnalytics.tsx:124-145 | the category forecast: mean scaled by the seasonal factor, confidence from the volatility |
| PredictiveAnalytics.PredictCategory | client/src/components/advanced/PredictiveAnalytics.tsx:118-146 | one forecast for a category with at least two expenses, none otherwise |
| PredictiveAnalytics.PredictBalance | client/src/components/advanced/PredictiveAnalytics.tsx:150-178 | the balance forecast: balance + monthly net × horizon months, confidence 0.75 |
| PredictiveAnalytics.GeneratePredictions | client/src/components/advanced/PredictiveAnalytics.tsx:81-181 | the income, category and balance blocks in push order, then ranked by descending confidence |
| PredictiveAnalytics.PushPredictions | client/src/components/advanced/PredictiveAnalytics.tsx:85-178 | the pushes build the income block, then each category's block in category order, then the balance forecast |
| PredictiveAnalytics.PredictFromIncomes | client/src/components/advanced/PredictiveAnalytics.tsx:87-113 | from at least three incomes the forecast is the one fitted to the points (index, amount): their mean, the least-squares trend, six points along it from the last income |
| PredictiveAnalytics.ExpensePredictionShape | client/src/components/advanced/PredictiveAnalytics.tsx:133-144 | a category forecast is an expense forecast with confidence ≥ 0.3 |
| PredictiveAnalytics.CategoryPredictionsShape | client/src/components/advanced/PredictiveAnalytics.tsx:118-146 | each category contributes at most one forecast, each an expense forecast with confidence ≥ 0.3 |
| PredictiveAnalytics.AssembledShape | client/src/components/advanced/PredictiveAnalytics.tsx:81-178 | the list built from an optional income forecast, expense forecasts and a balance forecast has the income forecast first iff present, the balance forecast last and alone of its kind, and every confidence ≥ 0.3 |
| PredictiveAnalytics.GeneratedShape | client/src/components/advanced/PredictiveAnalytics.tsx:81-178 | before ranking, the income forecast comes first iff there are at least three incomes, the last forecast is the only balance forecast, with confidence 0.75, and no confidence is below 0.3 |
| PredictiveAnalytics.PredictionsRanked | client/src/components/advanced/PredictiveAnalytics.tsx:180 | the returned list is a permutation of the generated one, non-increasing in confidence, ties in push order, and still holds the balance forecast |
| FinancialCalculations.SpendingByCategory | client/src/hooks/useFinancialCalculations.ts:35-40 | the reduce's dictionary has a key exactly for each expense category, each entry the sum of that category's expenses |
| FinancialCalculations.SpendingKeys | client/src/hooks/useFinancialCalculations.ts:35-40 | the keys are exactly the category ids of the expense transactions |
| FinancialCalculations.SpendingValue | client/src/hooks/useFinancialCalculations.ts:37-39 | each entry, read with `\|\| 0`, is the sum of the expenses of its category |
| FinancialCalculations.SumOverCategories | client/src/hooks/useFinancialCalculations.ts:35-40 | the entries of distinct keys sum to the expenses booked on those keys |
| FinancialCalculations.SpendingSumsToExpenses | client/src/hooks/useFinancialCalculations.ts:27-40 | the entries of the dictionary, each key once, sum to the total expenses |
| FinancialCalculations.SpendingNonNegative | client/src/hooks/useFinancialCalculations.ts:35-40 | non-negative amounts give non-negative entries |
| FinancialCalculations.AdherenceTerm | client/src/hooks/useFinancialCalculations.ts:44-46 | a category's term is at most 100, 0 without a positive budget, non-negative for non-negative spend, spend/budget×100 within budget, and exactly 100 for any spend at or above a positive budget |
| FinancialCalculations.BudgetAdherence | client/src/hooks/useFinancialCalculations.ts:43-47 | the mean of the terms, undefined (0/0) exactly when there is no category |
| FinancialCalculations.AdherenceTotalBounds | client/src/hooks/useFinancialCalculations.ts:43-46 | with non-negative spending the sum of the terms lies in [0, 100·n] |
| FinancialCalculations.BudgetAdherenceBounds | client/src/hooks/useFinancialCalculations.ts:43-47 | with non-negative spending and some category the adherence lies in [0, 100] |
| FinancialCalculations.Calculate | client/src/hooks/useFinancialCalculations.ts:22-64 | total income and expenses by type, net = income − expenses, hidden fees of any type, the spending dictionary and the adherence, in [0, 100] for non-negative data |
| Utils.PercentageChange | client/src/lib/utils.ts:32-35 | from 0 the change is 100 iff the new value is positive, else 0; otherwise it is (new − old)/old×100 |
| Utils.PercentageChangeZeroIff | client/src/lib/utils.ts:34 | from a non-zero start the change is 0 iff nothing changed, and from a positive start positive iff the value grew |
| Utils.Clamp | client/src/lib/utils.ts:87-89 | for min ≤ max the result lies in [min, max], equals values already in range, and is min below and max above; for min > max it is max |
| Utils.ClampIdempotent | client/src/lib/utils.ts:87-89 | clamping twice is clamping once |
| Utils.ClampMonotone | client/src/lib/utils.ts:87-89 | clamping preserves order |
| Utils.ToInt32 | client/src/lib/utils.ts:78 | the wrap into a signed 32-bit integer lies in range, is congruent modulo 2^32, and is the identity on 32-bit values |
| Utils.Hue | client/src/lib/utils.ts:80 | `hash % 360` keeps the sign of the hash, lies in (−360, 360) and is congruent to the hash modulo 360 |
| Utils.CodeUnits | client/src/lib/utils.ts:78 | `charCodeAt` reads a character of the Basic Multilingual Plane as itself and one beyond it as a high and a low surrogate that decode back to it |
| Utils.Utf16 | client/src/lib/utils.ts:77 | the string's code units, at least one per character, each below 2^16 |
| Utils.HashBounded | client/src/lib/utils.ts:76-79 | over n code units the unwrapped hash stays within ±n·(2^31 + 2^16), so a double holds it exactly |
| Utils.ColorFromString | client/src/lib/utils.ts:75-82 | the loop's hash over the UTF-16 code units gives the colour `hsl(<hue of the hash>, 70%, 50%)` |
| Utils.SurrogatePairHash | client/src/lib/utils.ts:76-79 | a character beyond the Basic Multilingual Plane hashes as its two surrogates: low + 31 × high |
| Utils.MoneyBagUnits | client/src/lib/utils.ts:77-78 | U+1F4B0 is the two code units 0xD83D and 0xDCB0 |
| Utils.EmptyStringColor | client/src/lib/utils.ts:75-82 | the empty string gives "hsl(0, 70%, 50%)" |
| Utils.SingleCharacterHue | client/src/lib/utils.ts:76-80 | one character of the Basic Multilingual Plane hashes to its code, so its hue is the code modulo 360 |
| Utils.CountAt | client/src/lib/utils.ts:67 | the count is the multiplicity of `@` in the string, so never more than its length |
| Utils.EmailCheckMatchesPattern | client/src/lib/utils.ts:66-69 | the check holds exactly when the string matches the pattern: a non-empty run free of white space and `@`, `@`, a run, a point, a non-empty run |
| Utils.ValidEmailHasOneAt | client/src/lib/utils.ts:66-69 | an accepted address contains exactly one `@` |
| ExportCenter.GenerateCsv | client/src/components/advanced/ExportCenter.tsx:335-345 | the appending loop produces the header then one line-feed-terminated line per fetched transaction |
| ExportCenter.GenerateExcel | client/src/components/advanced/ExportCenter.tsx:322-333 | the same with the quoted category column |
| ExportCenter.SplitJoin | client/src/components/advanced/ExportCenter.tsx:336-341 | lines free of line feeds, each terminated, are recovered by cutting at line feeds |
| ExportCenter.ParseCsvLineRoundTrip | client/src/components/advanced/ExportCenter.tsx:340 | a row free of quotes, commas in date and amount, and line feeds reads back from its CSV line |
| ExportCenter.CsvRoundTrip | client/src/components/advanced/ExportCenter.tsx:335-345 | the CSV text of such rows cuts into the header line and n lines, and line i+1 reads back as row i, category aside |
| ExportCenter.ExcelTextIsJoin | client/src/components/advanced/ExportCenter.tsx:322-333 | the Excel text is its header and its lines, each followed by a line feed |
| ExportCenter.ExcelLineStructure | client/src/components/advanced/ExportCenter.tsx:322-333 | the Excel text of printable rows with line-feed-free categories cuts into the header line and then, for each row in order, its own Excel line |
| ExportCenter.NoDataHeaderOnly | client/src/components/advanced/ExportCenter.tsx:324-338 | without fetched data each text is its header alone, which cuts into exactly that one line |
| ExportCenter.EmbeddedQuoteBreaksRoundTrip | client/src/components/advanced/ExportCenter.tsx:340 | a row whose description holds `"` (and whose date holds no comma) is written unescaped and never reads back as itself |
| ExportCenter.PdfSummary | client/src/components/advanced/ExportCenter.tsx:242-255 | the summary's income and expenses are the totals over every fetched transaction, and net = income − expenses |
| ExportCenter.PdfLayout | client/src/components/advanced/ExportCenter.tsx:235-274 | at most ten transaction lines, at 8-unit steps from 90 or 150, all within [30, 250], so no page is ever added; none without transactions or data |
| ExportCenter.ExportReport | client/src/components/advanced/ExportCenter.tsx:169-190 | any format but pdf, image, excel and csv is refused with "Format non supporté"; the others are named financial-report-date.format with their generator's output |
| ExportCenter.FilenameExtension | client/src/components/advanced/ExportCenter.tsx:190 | the extension is the format id verbatim (".excel"), and distinct formats get distinct names |
| FeeScanner.MonthlyFactor | src/components/dashboard/HiddenFeesDetector.tsx:110-116 | the factor is positive, and 1 for monthly and unknown frequencies |
| FeeScanner.MonthlyAmount | src/components/dashboard/HiddenFeesDetector.tsx:110-116 | the monthly amount has the sign of the amount: positive iff it is, zero iff it is |
| FeeScanner.MonthlyAmountIsScaling | src/components/dashboard/HiddenFeesDetector.tsx:110-116 | each conversion scales the amount by its frequency's factor: daily ×30, weekly ×4, yearly ÷12, occasional ×0.5 |
| FeeScanner.MonthlyImpactAppend | src/components/dashboard/HiddenFeesDetector.tsx:108-119 | a group's impact is additive over concatenation |
| FeeScanner.TotalMonthlyFeesAppend | src/components/dashboard/HiddenFeesDetector.tsx:121-123 | the total is additive over the revealed groups |
| FeeScanner.TotalMonthlyFeesNonNegative | src/components/dashboard/HiddenFeesDetector.tsx:121-123 | groups of non-negative amounts give a non-negative total |
| FeeScanner.MonthlyImpactNonNegative | src/components/dashboard/HiddenFeesDetector.tsx:108-119 | non-negative amounts give a non-negative impact |
| FeeScanner.MonthlyImpactMonotone | src/components/dashboard/HiddenFeesDetector.tsx:108-119 | raising one item's amount never lowers the impact |
| FeeScanner.ImpactOfThree | src/components/dashboard/HiddenFeesDetector.tsx:108-119 | a three-item impact is the sum of the converted items |
| FeeScanner.ImpactOfFour | src/components/dashboard/HiddenFeesDetector.tsx:108-119 | a four-item impact is the sum of the converted items |
| FeeScanner.DatabaseTotal | src/components/dashboard/HiddenFeesDetector.tsx:35-123 | the fixed database's monthly total is 1042.61 |
| FeeScanner.Scanner.constructor | src/components/dashboard/HiddenFeesDetector.tsx:30-32 | the scan starts idle, at progress 0, with nothing detected |
| FeeScanner.Scanner.StartScan | src/components/dashboard/HiddenFeesDetector.tsx:85-106 | ticks 0, 10, …, 100 show the first two groups from 50 and all from 80; the scan ends idle at 100 with the whole database in order |
| GrowthProjection.GenerateProjection | src/components/dashboard/PredictiveAnalytics.tsx:65-86 | exactly `months` entries, entry i for month i+1, with the rounded compounded values |
| GrowthProjection.GrownIsCompounded | src/components/dashboard/PredictiveAnalytics.tsx:72-80 | after k months a value is base·(1 + g/12)^k |
| GrowthProjection.GrownNonDecreasing | src/components/dashboard/PredictiveAnalytics.tsx:72-80 | a non-negative base at a non-negative rate never decreases |
| GrowthProjection.GrownMonotone | src/components/dashboard/PredictiveAnalytics.tsx:72-80 | the same between any two months |
| GrowthProjection.RoundedSeriesNonDecreasing | src/components/dashboard/PredictiveAnalytics.tsx:72-80 | with non-negative rates the rounded savings, expenses and income never decrease |
| GrowthProjection.NetWorthFromRunningValues | src/components/dashboard/PredictiveAnalytics.tsx:81 | net worth at month k = round((income_k − expenses_k)·k) of the unrounded values |
| GrowthProjection.ScenarioTable | src/components/dashboard/PredictiveAnalytics.tsx:38-63 | three scenarios whose probabilities sum to 100, all rates non-negative |
| GrowthProjection.GeneratePredictions | src/components/dashboard/PredictiveAnalytics.tsx:88-94 | one 24-month projection per scenario, in table order |
| GoalsTracker.ShownGoals | client/src/components/dashboard/GoalsTracker.tsx:97 | the default four goals are shown exactly when the supplied list is empty |
| GoalsTracker.CalculateProgress | client/src/components/dashboard/GoalsTracker.tsx:100-102 | at most 100; current/target×100 below the target, 100 at or above; not a number (`None`) exactly for a zero target with an amount ≤ 0, which is NaN for 0/0 and −Infinity for a negative amount |
| GoalsTracker.GetTimeToGoal | client/src/components/dashboard/GoalsTracker.tsx:104-116 | months needed and months until the deadline are the ceilings of their quotients; on track iff needed ≤ until; a reached goal needs ≤ 0 months |
| GoalsTracker.LateMeansAtLeastOneMonth | client/src/components/dashboard/GoalsTracker.tsx:241-243 | a goal shown as late is late by at least one month |
| GoalsTracker.ReachedGoalSchedule | client/src/components/dashboard/GoalsTracker.tsx:104-116 | a reached goal with a future deadline is on track, yet one exactly reached a month past its deadline is not |
| GoalsTracker.OverallProgress | client/src/components/dashboard/GoalsTracker.tsx:137-139 | 0 without a positive target, else saved/target×100 |
| GoalsTracker.TotalsOrdered | client/src/components/dashboard/GoalsTracker.tsx:137-138 | for goals with 0 ≤ current ≤ target, 0 ≤ saved ≤ target |
| GoalsTracker.OverallProgressBounded | client/src/components/dashboard/GoalsTracker.tsx:137-139 | for such goals the overall progress lies in [0, 100] |
| GoalsTracker.CountStatus | client/src/components/dashboard/GoalsTracker.tsx:178-194 | a status count never exceeds the number of goals |
| GoalsTracker.CountStatusIsFilterLength | client/src/components/dashboard/GoalsTracker.tsx:178-194 | the count equals the number of positions whose goal has one of the statuses |
| GoalsTracker.CountsPartitionGoals | client/src/components/dashboard/GoalsTracker.tsx:178-194 | ahead-or-completed, on-track and behind counts sum to the number of goals |
| GoalsTracker.DefaultOverview | client/src/components/dashboard/GoalsTracker.tsx:137-194 | the default goals total 43700 saved of 74500, counted 1 / 2 / 1 |
| DashboardScore.RawScore | client/src/components/dashboard/DashboardMain.tsx:43-56 | the score lies in [15, 100]; without penalties it is at least 50, with both at most 50 |
| DashboardScore.DebtAdjustmentsExclusive | client/src/components/dashboard/DashboardMain.tsx:48-53 | the debt bonus and penalty never both apply; a ratio in [0.3, 0.5] triggers neither |
| DashboardScore.CalculateHealthScore | client/src/components/dashboard/DashboardMain.tsx:43-56 | the running score, clamped, equals the raw score and lies in [0, 100], so the clamp never changes it |
| DashboardScore.RawScoreMonotone | client/src/components/dashboard/DashboardMain.tsx:44-53 | more bonuses and fewer penalties never lower the score |
| DashboardScore.AsNumber | client/src/components/dashboard/DashboardMain.tsx:45-53 | a relational comparison sees `null` as 0 and a missing field as a number that fails every test |
| DashboardScore.ScoreExtremes | client/src/components/dashboard/DashboardMain.tsx:44-55 | the best profile scores 100, the worst 15, one with every field missing 50, one with every field `null` 65 |
| DashboardScore.NullIsZero | client/src/components/dashboard/DashboardMain.tsx:45-53 | a `null` field scores as 0 would; a missing debt ratio scores as a neutral one |
| DashboardScore.DisplayedScore | client/src/components/dashboard/DashboardMain.tsx:33-41 | 0 until data arrives, then within [15, 100] |
| HealthIndex.GetHealthLevel | client/src/components/dashboard/FinancialHealthIndex.tsx:31-56 | Excellente iff ≥ 80, Bonne iff in [60, 80), Moyenne iff in [40, 60), À améliorer iff < 40 |
| HealthIndex.Recommendations | client/src/components/dashboard/FinancialHealthIndex.tsx:172-175 | the four conditions cover every score without overlap, so exactly one sentence shows |
| HealthIndex.Rank | client/src/components/dashboard/FinancialHealthIndex.tsx:31-56 | each level's position in the ordered list of levels |
| HealthIndex.LevelMonotone | client/src/components/dashboard/FinancialHealthIndex.tsx:31-56 | a higher score never gives a lower level |
| HealthIndex.HealthFactors | client/src/components/dashboard/FinancialHealthIndex.tsx:61-90 | four factors: savings good iff ≥ 20, debt good iff ratio ≤ 0.3 else bad, emergency good iff ≥ 3 months with target 6, diversification good iff ≥ 70 with target 80 |
| HealthIndex.MissingDataFactors | client/src/components/dashboard/FinancialHealthIndex.tsx:61-90 | without data only the debt factor is good; 4 months of emergency fund is good though below the displayed target |
| HealthIndex.ExactlyOneRecommendation | client/src/components/dashboard/FinancialHealthIndex.tsx:172-175 | exactly one sentence shows for any score, the one of its level |
| ScenarioExplorer.LookupScenario | src/components/financial/ScenarioExplorer.tsx:31-70 | coffee, salary and transport are found, each with a positive maximum and three comparison items; any other id is an error |
| ScenarioExplorer.CurrentImpact | src/components/financial/ScenarioExplorer.tsx:71 | round(slider/100 × max) lies in [0, max] for a slider in [0, 100], 0 at 0 and max at 100 |
| ScenarioExplorer.ImpactMonotone | src/components/financial/ScenarioExplorer.tsx:71 | a higher slider never gives a smaller impact |
| ScenarioExplorer.ProjectedSavings | src/components/financial/ScenarioExplorer.tsx:72 | impact × horizon exceeds the impact by impact × (horizon − 1) |
| ScenarioExplorer.FindLevel | src/components/financial/ScenarioExplorer.tsx:82-84 | the first level containing the slider, or none when none does |
| ScenarioExplorer.GetCurrentLevel | src/components/financial/ScenarioExplorer.tsx:81-85 | a level of the table, containing the slider or else the first |
| ScenarioExplorer.LevelsPartitionSlider | src/components/financial/ScenarioExplorer.tsx:74-85 | every slider value in 0..100 lies in exactly one level; any other falls back to the first |
| ScenarioExplorer.TimelineData | src/components/financial/ScenarioExplorer.tsx:87-94 | min(months, 24) entries, month i+1, monthly = impact, cumulative growing by the impact from the impact |
| ScenarioExplorer.TimelineEndsAtProjection | src/components/financial/ScenarioExplorer.tsx:72-94 | within 24 months the last cumulative value equals the projected savings |
| ScenarioExplorer.Milestones | src/components/financial/ScenarioExplorer.tsx:263 | exactly the milestones of {3, 6, 12, 24} within the horizon, ascending |
| ScenarioExplorer.Filter | src/components/financial/ScenarioExplorer.tsx:263 | the kept candidates are those within the horizon, in their order |
| ScenarioExplorer.PossibleStaysPossible | src/components/financial/ScenarioExplorer.tsx:303-321 | an item marked "Possible" stays so when the slider rises |
| ScenarioExplorer.CoffeeWeekendOutOfReach | src/components/financial/ScenarioExplorer.tsx:35-41 | the 150 € week-end is never possible in the coffee scenario, whose maximum is 130 |
| ScenarioExplorer.SuccessProbability | src/components/financial/ScenarioExplorer.tsx:211 | 100 − slider/2 lies in [50, 100] and is 100 only at 0 |
| ScenarioExplorer.SuccessProbabilityDecreasing | src/components/financial/ScenarioExplorer.tsx:211 | a higher slider never raises the probability |
| LearningCenter.CompletedCount | client/src/components/dashboard/LearningCenter.tsx:240 | the number of finished lessons never exceeds the number of lessons |
| LearningCenter.CompletedCountIsFilterLength | client/src/components/dashboard/LearningCenter.tsx:240 | the count equals the number of positions whose lesson is at exactly 100 |
| LearningCenter.CategoryProgress | client/src/components/dashboard/LearningCenter.tsx:237-242 | finished/total×100, in [0, 100], 0 for an unknown or empty category |
| LearningCenter.AllCompletedIff | client/src/components/dashboard/LearningCenter.tsx:240 | all lessons are counted finished iff each has completion 100 |
| LearningCenter.CatalogueProgress | client/src/components/dashboard/LearningCenter.tsx:79-242 | of the catalogue only "fundamentals" has progress, one third |
| LearningCenter.GlobalProgress | client/src/components/dashboard/LearningCenter.tsx:279 | completed/15×100, non-negative, at most 100 for at most 15 lessons, 0 for none |
| LearningCenter.GlobalProgressLabel | client/src/components/dashboard/LearningCenter.tsx:275 | the rounded label lies in [0, 100] and is 0 for none |
| LearningCenter.Badges | client/src/components/dashboard/LearningCenter.tsx:344-355 | at most one badge: "Complété" exactly at 100, "En cours" exactly strictly between 0 and 100 |
| LearningCenter.Button | client/src/components/dashboard/LearningCenter.tsx:413-427 | "Revoir" exactly at 100, "Commencer" exactly at 0 or below, "Continuer" otherwise |
| LearningCenter.BadgeAndButtonAgree | client/src/components/dashboard/LearningCenter.tsx:344-429 | at most one badge; "Revoir" iff "Complété"; within [0, 100] "Continuer" iff "En cours" and "Commencer" iff no badge at 0 |
| LearningCenter.DifficultyColorsDistinct | client/src/components/dashboard/LearningCenter.tsx:218-225 | Facile, Moyen and Difficile get distinct colours, none the muted default |
| LearningCenter.DifficultyColor | client/src/components/dashboard/LearningCenter.tsx:218-225 | the muted default is returned exactly for a text other than Facile, Moyen and Difficile |
| FinancialMapping.WithList | client/src/components/financial/FinancialMapping.tsx:70-73 | replacing one list leaves every other list, the mood and the tags unchanged |
| FinancialMapping.AddItem | client/src/components/financial/FinancialMapping.tsx:67-81 | one blank template appended to the chosen list (with rate for debts, due date for goals); nothing else changes; no-op for the emotional context |
| FinancialMapping.DropIndex | client/src/components/financial/FinancialMapping.tsx:88 | filtering out an index never lengthens the list |
| FinancialMapping.DropIndexRemovesOne | client/src/components/financial/FinancialMapping.tsx:88 | a valid index removes exactly that element, the others in order; any other index changes nothing |
| FinancialMapping.RemoveItem | client/src/components/financial/FinancialMapping.tsx:83-90 | only the chosen list loses the element; no-op for the emotional context |
| FinancialMapping.DeleteKeepsOneEntry | client/src/components/financial/FinancialMapping.tsx:183 | deleting from a list that shows the delete button leaves at least one entry |
| FinancialMapping.UpdateAt | client/src/components/financial/FinancialMapping.tsx:97-99 | the length is unchanged |
| FinancialMapping.UpdateItem | client/src/components/financial/FinancialMapping.tsx:92-101 | only the chosen list changes; no-op for the emotional context |
| FinancialMapping.UpdateReadsBack | client/src/components/financial/FinancialMapping.tsx:97-99 | the edited element reads back the new field value, every other element is unchanged, an invalid index changes nothing |
| FinancialMapping.RemoveAll | client/src/components/financial/FinancialMapping.tsx:109 | the tag is gone and every other tag kept |
| FinancialMapping.ToggleTag | client/src/components/financial/FinancialMapping.tsx:108-110 | membership of the tag flips, every other tag unchanged |
| FinancialMapping.RemoveAllNoDuplicates | client/src/components/financial/FinancialMapping.tsx:109 | removing keeps a duplicate-free list duplicate-free |
| FinancialMapping.ToggleTwice | client/src/components/financial/FinancialMapping.tsx:103-113 | toggling keeps the tags duplicate-free; toggling twice restores the tag set, and the list itself when the tag was absent |
| FinancialMapping.RemoveAllAppended | client/src/components/financial/FinancialMapping.tsx:108-110 | removing a freshly appended tag gives the list back |
| FinancialMapping.ToggleEmotionalTag | client/src/components/financial/FinancialMapping.tsx:103-113 | only the tags change |
| FinancialMapping.ProgressPercent | client/src/components/financial/FinancialMapping.tsx:279 | round((step+1)/6×100) lies in [17, 100] and is 100 only at the last step |
| FinancialMapping.ProgressValues | client/src/components/financial/FinancialMapping.tsx:279 | the six steps show 17, 33, 50, 67, 83 and 100 |
| FinancialMapping.ProgressIncreasing | client/src/components/financial/FinancialMapping.tsx:279 | a later step shows a strictly larger percentage |
| FinancialMapping.MappingWizard.constructor | client/src/components/financial/FinancialMapping.tsx:45-56 | the questionnaire starts at step 0 with one blank income, fixed and variable expense, no debt or goal, mood 5 and no tag |
| FinancialMapping.MappingWizard.HandleNext | client/src/components/financial/FinancialMapping.tsx:248-254 | moves one step forward before the last step, submits the data at the last; the step stays in [0, 5] |
| FinancialMapping.MappingWizard.HandleBack | client/src/components/financial/FinancialMapping.tsx:256-262 | moves one step back after the first, leaves the questionnaire at the first |
| FinancialMapping.MappingWizard.JumpTo | client/src/components/financial/FinancialMapping.tsx:299 | a step button selects its step and keeps the data |
| FinancialMapping.MappingWizard.Add | client/src/components/financial/FinancialMapping.tsx:67-81 | the data becomes AddItem of the old data; the step is kept |
| FinancialMapping.MappingWizard.Remove | client/src/components/financial/FinancialMapping.tsx:83-90 | the data becomes RemoveItem of the old data; the step is kept |
| FinancialMapping.MappingWizard.Update | client/src/components/financial/FinancialMapping.tsx:92-101 | the data becomes UpdateItem of the old data; the step is kept |
| FinancialMapping.MappingWizard.Toggle | client/src/components/financial/FinancialMapping.tsx:103-113 | the data becomes ToggleEmotionalTag of the old data; the step is kept |
| AppWizard.Rendered | src/pages/Index.tsx:45-73 | the revelation screen renders iff the step is revelation and data is present; the page is blank only at revelation without data |
| AppWizard.Flow.Screen | src/pages/Index.tsx:45-73 | under the invariant (revelation ⇒ data) the page is never blank |
| AppWizard.Flow.constructor | src/pages/Index.tsx:9-11 | the flow starts at the question, with no question and no data |
| AppWizard.Flow.QuestionSubmit | src/pages/Index.tsx:13-16 | stores the question and moves to the mapping, keeping the invariant |
| AppWizard.Flow.MappingSubmit | src/pages/Index.tsx:18-21 | stores the data and moves to the revelation, keeping the invariant |
| AppWizard.Flow.BackToQuestion | src/pages/Index.tsx:23-26 | back to the question, which is cleared |
| AppWizard.Flow.BackToMapping | src/pages/Index.tsx:28-31 | back to the mapping, whose data is dropped |
| AppWizard.ForwardAndBack | src/pages/Index.tsx:13-31 | from any consistent state on the question screen, the full path shows question, mapping, revelation, mapping, question, and ends with the question cleared and no data |
| QuestionInput.Submission | client/src/components/financial/QuestionInput.tsx:28-33 | something is submitted iff the trimmed question is non-empty or an example is selected; the example takes precedence, else the trimmed question |
| QuestionInput.DisabledIffNothingSubmitted | client/src/components/financial/QuestionInput.tsx:86 | the button is disabled exactly when submitting would do nothing; white space alone is never submitted |
| QuestionInput.Form.constructor | client/src/components/financial/QuestionInput.tsx:25-26 | the form starts empty with no example selected |
| QuestionInput.Form.HandleSubmit | client/src/components/financial/QuestionInput.tsx:28-33 | reports the submission, none exactly when the button is disabled |
| QuestionInput.Form.HandleExampleClick | client/src/components/financial/QuestionInput.tsx:35-38 | the example becomes both the selection and the text, and is what a submit sends |
| QuestionInput.Form.HandleInputChange | client/src/components/financial/QuestionInput.tsx:71-74 | typing replaces the text and drops the selection, so a submit sends the trimmed text |
| QuestionInput.ClickThenEdit | client/src/components/financial/QuestionInput.tsx:31-74 | from any form state, editing a clicked example submits the trimmed edited text, not the example, and nothing when the edit is blank |
| RevelationScreen.EquationConsistent | src/components/financial/RevelationScreen.tsx:37-44 | 3200 − 1850 − 950 = 400 remains, and 400/3200×100 = 12.5 is the savings rate |
| RevelationScreen.ViewsDistinct | src/components/financial/RevelationScreen.tsx:115-128 | every view has a button, and captions are distinct per view |
| RevelationScreen.Reveal | src/components/financial/RevelationScreen.tsx:91-95 | the insight is present afterwards, nothing else is added, the earlier insights keep their order, and the list grows by at most one |
| RevelationScreen.RevealIdempotent | src/components/financial/RevelationScreen.tsx:92-94 | revealing twice is revealing once, and the list stays duplicate-free |
| RevelationScreen.RevealNeverDims | src/components/financial/RevelationScreen.tsx:188 | revealing lights its own card and dims none |
| RevelationScreen.Screen.constructor | src/components/financial/RevelationScreen.tsx:33-34 | the screen opens on the equation with nothing revealed |
| RevelationScreen.Screen.RevealInsight | src/components/financial/RevelationScreen.tsx:91-95 | the list becomes Reveal of the old list and stays duplicate-free; the view is kept |
| RevelationScreen.Screen.SetView | src/components/financial/RevelationScreen.tsx:120 | selects the view and keeps the revealed insights |
| Ranking.SortDesc | client/src/components/advanced/HiddenFeesDetector.tsx:180 | the comparator sort returns a permutation of its input |
| Ranking.SortDescOrdered | client/src/components/advanced/HiddenFeesDetector.tsx:180 | the result is non-increasing in the key |
| Ranking.SortDescStable | client/src/components/advanced/HiddenFeesDetector.tsx:180 | entries of equal key keep their input order, as the stable `Array.prototype.sort` does |
| Text.ToLowerIdempotent | client/src/components/advanced/HiddenFeesDetector.tsx:111-112 | no upper-case letter survives lower-casing, so lower-casing twice is lower-casing once |
| Text.ToLowerKeepsOccurrences | client/src/components/advanced/HiddenFeesDetector.tsx:111-118 | a text containing a word still contains its lower-case form after lower-casing |
| Text.Trim | client/src/components/financial/QuestionInput.tsx:30 | the result is a slice of the input with only white space around it, and neither begins nor ends with white space |
| Text.TrimEmptyIff | client/src/components/financial/QuestionInput.tsx:30 | a string trims to empty iff it is all white space |
| Numeric.Round | client/src/components/financial/FinancialMapping.tsx:279 | `Math.round` gives the integer within half of x, halves rounded up |
| Numeric.Ceil | client/src/components/dashboard/GoalsTracker.tsx:106 | `Math.ceil` gives the least integer at or above x |

## Left out

- Network and storage: every `fetch` and `useQuery`/`useMutation` call, the export history and the simulation save. The components take the fetched transactions, budget categories and settings as inputs.
- Rendering: charts, icons, animations, toasts and layout. The jsPDF drawing calls and html2canvas are out; only the PDF's summary figures and line placement are kept.
- Floating point: amounts and rates are exact rationals; IEEE-754 rounding and `parseFloat` are not modelled. Where the source can produce NaN, an infinity or `undefined`, the model names the case: the expense volatility is a `Quotient` (finite, ±Infinity or NaN); a goal progress of NaN or −Infinity and a 0/0 budget adherence are `None`; missing fields are `None` or `Missing`, and a `null` dashboard field is `Null`.
- PredictiveAnalytics.ExpenseConfidence: for a NaN volatility (every expense zero) the source's confidence is NaN, and for a −Infinity one it is +Infinity; the model keeps the confidence a number and gives both the 0.3 floor, since ranking forecasts by a NaN key has no defined order.
- `Math.sqrt`: the square root is an uninterpreted function parameter (`sqrt` of the environment), applied to the variance of the expenses; no property of the square root is assumed.
- `Math.sin`: the seasonal expense projection (`generateExpenseProjection`) is not modelled because it uses `Math.sin`.
- Clock, calendar and locale: "now", timestamps, the calendar month of a date and the months spanned by the transactions (`getMonthsSpan`) are parameters. Date formatting and number formatting are out.
- Randomness: the hook's `monthlyTrend` uses `Math.random` and is not modelled.
- Timers: the delays of the simulated fee scan are removed; its steps are kept in order. The animated score of the health index is out.
- PredictiveAnalytics.PredictExpense: the standard deviation is the environment's uninterpreted `sqrt` applied to the variance, so nothing the model proves depends on it being the actual square root.
- GoalsTracker.GetTimeToGoal: requires a positive monthly contribution. The source's default is 300, and a zero contribution would divide by zero.
- GoalsTracker: the suggested monthly amount rendered beside each goal (GoalsTracker.tsx:279) is not modelled.
- LearningCenter: lesson titles, descriptions and durations are left out. The global progress takes the set of completed lessons as a parameter; the component never adds to that set.
- HiddenFees: the category breakdown chart and its per-category totals are not modelled.
- FeeScanner: the colour and frequency labels (`getImpactColor`, `getFrequencyText`) are presentation and are not modelled.
- FinancialMapping: items are modelled with name, amount, rate and due date. The field edit covers these fields only, not arbitrary keys.
- ExportCenter: the image export and the PDF document are opaque payloads. Only the text formats are modelled as text.
- Text.ToLower: only the capitals of Basic Latin and Latin-1 are lowered and every other character is kept, whereas `toLowerCase` lowers all of Unicode (for example 'Œ', Greek and Cyrillic, and 'İ' becomes two characters). The keywords and patterns the fee detector searches for use only ASCII letters, spaces and 'é'; of the characters not modelled, only U+212A (to 'k', which no keyword contains) and U+0130 (to 'i' followed by a combining dot, which no keyword contains) lower into that alphabet, so neither can complete a match, so the detector's results are unaffected.
- Utils: `formatDate`, `debounce` and `safeNumber` are locale, timer and parsing helpers and are not modelled.
