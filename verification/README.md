# Basel III risk and capital pipeline — a Dafny model

This project models the deterministic core of a credit-risk tool that turns
per-loan probabilities of default (PD) into Basel-style risk figures:

- **Risk-weight tiering** (`RiskWeights`): a PD is mapped to one of four
  risk weights (0.5, 0.75, 1.0, 1.5) by three inclusive upper bounds (0.05,
  0.10, 0.30). This is the repository's own simplified scheme, not the
  standardised-approach table. There is no range check on PD.
- **Per-loan metrics** (`RiskWeights`): LGD (0.45, or 0.45 × 0.8 = 0.36 for
  rows flagged `home_ownership_OWN == 1`), EAD (the original table's
  `loan_amnt` looked up by row label), RWA = EAD × weight, and
  EL = PD × LGD × EAD.
- **Stress engine** (`StressTesting`): PD × scenario multiplier (mild 1.5,
  moderate 2.0, severe 3.0, any other name 1.0; with no scenario given the
  default is moderate), capped at 1.0. EL, weight
  and RWA are then recomputed with LGD and EAD held fixed. The result is the
  loan table with four `Stressed_*` columns added. A five-row summary gives
  the percent change of each aggregate figure.
- **Capital calculator** (`CapitalRequirements`): Tier 1 = 6 % of RWA and
  total capital = 8 % of RWA (paragraph 50 of BCBS 189, the Basel III
  framework text). With the conservation buffer it is 8 % + 2.5 % of RWA
  (paragraph 129 of BCBS 189). It also has a capital ratio and a
  non-strict adequacy test.
- **Portfolio aggregation** (`Dashboard`): total exposure, RWA and EL; the
  exposure-weighted average PD; and reporting categories Low / Medium /
  High / Very High from the bins (0, 0.05], (0.05, 0.1], (0.1, 0.3],
  (0.3, 1]. These bins are open on the left and closed on the right, so
  PD 0 and PD above 1 get no category. On top of that come per-category
  exposure and loss, exposure shares and loss percentages, and exposure
  grouped by distinct risk weight.

The modules are `Common` (an `Option` for undefined quotients, column sums,
grouped sums and the summation lemmas), `Tables` (a loan table as row labels
plus named real columns), `RiskWeights`, `StressTesting`,
`CapitalRequirements` and `Dashboard`. All arithmetic is exact `real`
arithmetic. Every quotient whose divisor can be zero returns `None`
("undefined") instead of failing: percent change, capital ratio, weighted
average PD, exposure share and loss percentage.

Three facts about the code shape the model:
- The code validates no input. A negative PD gets weight 0.5, a PD above 1
  gets 1.5, and negative exposures pass through.
- `create_risk_metrics_table` writes its category column into the caller's
  table. The model returns that column as part of the result
  (`RiskMetricsTable.riskCategory`).
- LGD is estimated from the home-ownership flag. It is not an input field.

## Model

| member | source | states |
|---|---|---|
| `RiskWeights.AssignRiskWeight` | src/basel/risk_weights.py:19-26 | The weight is one of 0.5, 0.75, 1.0, 1.5. It equals the weight of tier `TierIndex(pd)`, the number of tier bounds (0.05, 0.10, 0.30) that PD strictly exceeds. |
| `RiskWeights.TierIndex` | src/basel/risk_weights.py:19-26 | The tier index is always one of the four tiers. |
| `RiskWeights.TierIndexBands` | src/basel/risk_weights.py:19-26 | PD ≤ 0.05 is tier 0, (0.05, 0.10] is tier 1, (0.10, 0.30] is tier 2, above 0.30 is tier 3. |
| `RiskWeights.RiskWeightMonotone` | src/basel/risk_weights.py:19-26 | A higher PD never gets a lower weight. |
| `RiskWeights.RiskWeightBoundaries` | src/basel/risk_weights.py:19-24 | PD exactly 0.05, 0.10 and 0.30 falls in the lower tier (0.5, 0.75, 1.0). |
| `RiskWeights.RiskWeightOutOfRange` | src/basel/risk_weights.py:19-26 | With no range validation, a negative PD gets 0.5 and a PD above 1 gets 1.5. |
| `RiskWeights.AssignRiskWeights` | src/basel/stress_testing.py:61 | The weight column has one entry per PD, in order, each the weight of its PD. |
| `RiskWeights.EstimateLgd` | src/basel/risk_weights.py:62-72 | One LGD per row, each 0.36 or 0.45. It is 0.36 exactly when the home-ownership column exists and the row's flag is 1. |
| `RiskWeights.LgdBounds` | src/basel/risk_weights.py:62-72 | Every LGD lies in [0.36, 0.45]. |
| `Tables.Position` | src/basel/risk_weights.py:91 | A label lookup finds a row carrying that label, and no earlier row carries it. |
| `RiskWeights.CalculateEad` | src/basel/risk_weights.py:91-92 | The lookup succeeds exactly when `loan_amnt` exists and every row label is in the original table. The result then has the same length and order as the loans, and each entry is the amount of a row with the same label. |
| `RiskWeights.CalculateRwa` | src/basel/risk_weights.py:110 | RWA has one entry per loan: exposure times weight. |
| `RiskWeights.RwaBounds` | src/basel/risk_weights.py:110 | For non-negative EAD and weights from the tiering, 0.5·EAD ≤ RWA ≤ 1.5·EAD per loan and for the portfolio total. |
| `RiskWeights.ExpectedLoss` | src/basel/stress_testing.py:60 | EL has one entry per loan: PD × LGD × EAD. |
| `RiskWeights.ExpectedLossBounds` | src/basel/stress_testing.py:60 | For PD in [0, 1], estimated LGDs and non-negative EAD, 0 ≤ EL ≤ 0.45·EAD per loan and in total. |
| `StressTesting.ScenarioMultiplier` | src/basel/stress_testing.py:20-26 | Mild is 1.5, moderate 2.0 and severe 3.0. The multiplier is at least 1, and it is 1 exactly when the name is not mild, moderate or severe, so "normal" and unknown names fall back without error. |
| `StressTesting.StressedPd` | src/basel/stress_testing.py:27-30 | The stressed PD is at most 1 and at most the scaled PD. It equals one of the two, so it is their minimum. |
| `StressTesting.ApplyStressScenario` | src/basel/stress_testing.py:4-30 | The output has the input's length. Every stressed PD is at most 1 and is the stressed value of the PD at the same position. |
| `StressTesting.ApplyDefaultStressScenario` | src/basel/stress_testing.py:4 | With no scenario named, the default is moderate: every PD is doubled and capped at 1, so it does not get the unscaled fallback. The stress-metrics calculation (line 32) has the same default and passes it on. |
| `StressTesting.UnknownScenarioIsIdentity` | src/basel/stress_testing.py:26-30 | Under "normal" or an unknown name, PDs in [0, 1] come back unchanged. |
| `StressTesting.StressCapsLargePd` | src/basel/stress_testing.py:30 | A PD above 1 is lowered to 1 under every scenario. |
| `StressTesting.StressNotBelowBase` | src/basel/stress_testing.py:26-30 | For PD ≥ 0, the stressed PD is at least min(PD, 1). |
| `StressTesting.ScenarioOrdering` | src/basel/stress_testing.py:20-30 | For PD ≥ 0, mild ≤ moderate ≤ severe. Two adjacent scenarios agree exactly when PD is 0 or the milder one is already capped at 1. |
| `StressTesting.StressedWeightNotLower` | src/basel/stress_testing.py:57-61 | Stress never lowers a loan's risk weight. |
| `StressTesting.CalculateStressMetrics` | src/basel/stress_testing.py:57-71 | The result is the loan table with the same row labels. Its columns are exactly the input columns plus the four stressed ones, and every other input column is unchanged. Stressed EL and RWA use the given LGD and EAD, and the stressed weight is the tier of the stressed PD. |
| `StressTesting.StressedRwaNotLower` | src/basel/stress_testing.py:57-62 | With non-negative EAD, total stressed RWA ≥ total unstressed RWA. |
| `StressTesting.StressedLossNotLower` | src/basel/stress_testing.py:57-60 | With PD in [0, 1] and non-negative LGD and EAD, total stressed EL ≥ total unstressed EL. |
| `StressTesting.ModerateScenarioExample` | src/basel/stress_testing.py:57-62 | PD 0.04 under moderate becomes 0.08 and moves from weight 0.5 to 0.75. With LGD 0.45 and EAD 10,000 that gives EL 360 and RWA 7,500. |
| `StressTesting.SevereScenarioExample` | src/basel/stress_testing.py:27-30 | PD 0.5 under severe hits the cap at 1.0 and gets weight 1.5. |
| `StressTesting.PercentChange` | src/basel/stress_testing.py:112 | The change is undefined exactly when the normal figure is 0. Otherwise normal + normal·change/100 gives back the stressed figure, and for a positive normal figure the change is non-negative iff the figure did not fall. |
| `StressTesting.SummarizeStressResults` | src/basel/stress_testing.py:89-112 | Five rows in fixed order (Total Exposure, RWA, Tier 1 Capital, Total Capital, With Buffer). Each row carries its normal and stressed figure and a change that inverts as above. |
| `CapitalRequirements.CalculateCapitalRatio` | src/basel/capital_requirements.py:47 | The ratio is undefined exactly when RWA is 0. Otherwise ratio × RWA gives back the capital. |
| `CapitalRequirements.CalculateMinimumCapital` | src/basel/capital_requirements.py:21-23 | Zero RWA requires no capital (0, 0, 0). For RWA ≠ 0, each figure's ratio to RWA gives back its ratio (Tier 1, total, total + buffer). with_buffer − total = RWA × buffer. For RWA ≥ 0, 0 ≤ tier1_ratio ≤ total_ratio and buffer ≥ 0, the figures satisfy 0 ≤ tier1 ≤ total ≤ with_buffer. |
| `CapitalRequirements.DefaultMinimumCapital` | src/basel/capital_requirements.py:1-23 | The figures are the general calculation under the defaults 0.06 / 0.08 / 0.025. For RWA ≠ 0 the three figures are 6 %, 8 % and 10.5 % of RWA. Non-negative RWA gives 0 ≤ tier1 ≤ total ≤ with_buffer. |
| `CapitalRequirements.DefaultCapitalExample` | src/basel/capital_requirements.py:1-23 | RWA 1,000,000 needs 60,000 Tier 1, 80,000 total and 105,000 with buffer. |
| `CapitalRequirements.CheckCapitalAdequacy` | src/basel/capital_requirements.py:65 | Capital is adequate iff it is at least the requirement, so equality counts as adequate. |
| `CapitalRequirements.AdequacyMonotone` | src/basel/capital_requirements.py:65 | Capital adequate for a requirement is adequate for every smaller one. |
| `CapitalRequirements.AdequacyMatchesRatio` | src/basel/capital_requirements.py:47-65 | For RWA > 0, capital is adequate against RWA × ratio iff its capital ratio is at least that ratio. |
| `Dashboard.WeightedAveragePd` | src/visualization/dashboard.py:191 | The average is undefined exactly when total EAD is 0. Otherwise average × ΣEAD = Σ(PD·EAD). |
| `Dashboard.WeightedAveragePdBounds` | src/visualization/dashboard.py:191 | With EAD ≥ 0, ΣEAD > 0 and PD in [0, 1], the weighted average PD lies in [0, 1]. |
| `Dashboard.WeightedAveragePdExample` | src/visualization/dashboard.py:191 | Loans (PD 0.02, EAD 100) and (PD 0.10, EAD 300) average to 0.08. |
| `Dashboard.PortfolioTotals` | src/visualization/dashboard.py:188-191 | The four totals are ΣEAD, ΣRWA, ΣEL and Σ(PD·EAD), the last being the numerator of the weighted average PD. The source computes them with four separate column sums; here one loop accumulates them, and its result equals those sums. |
| `Dashboard.CutFrom` | src/visualization/dashboard.py:194-196 | A found bin lies at or after the start and holds x in its left-open, right-closed interval. If none is found, no bin from the start on holds x. |
| `Dashboard.Cut` | src/visualization/dashboard.py:194-196 | A found bin holds x in its left-open, right-closed interval. If none is found, no bin holds x. |
| `Dashboard.CategoryOf` | src/visualization/dashboard.py:194-196 | Low iff 0 < PD ≤ 0.05. Medium iff 0.05 < PD ≤ 0.1. High iff 0.1 < PD ≤ 0.3. Very High iff 0.3 < PD ≤ 1. No category iff PD ≤ 0 or PD > 1. |
| `Dashboard.CategoryIndex` | src/visualization/dashboard.py:196 | A category's index points back to it in the label order. |
| `Dashboard.CategoryMatchesWeightTier` | src/visualization/dashboard.py:194-196 | For PD in (0, 1], the category index equals the weight-tier index: Low ↔ 0.5, Medium ↔ 0.75, High ↔ 1.0, Very High ↔ 1.5. |
| `Dashboard.Categorize` | src/visualization/dashboard.py:194-196 | The category column has one entry per PD, in order. |
| `Dashboard.CategoryPartition` | src/visualization/dashboard.py:199-202 | The four category sums plus the sum over uncategorised loans equal the total, so uncategorised loans are exactly what is dropped. |
| `Dashboard.RiskSummary` | src/visualization/dashboard.py:199-205 | Four rows in category order, empty categories included. Each row's EAD and EL are the sums over its loans. Its share is its EAD in percent of the total, and its EL percentage is its EL in percent of its own EAD. Both are undefined when the divisor is 0. |
| `Dashboard.CreateRiskMetricsTable` | src/visualization/dashboard.py:165-216 | The totals are ΣEAD, ΣRWA and ΣEL, with the overall EL percentage and the weighted average PD. It also returns the per-category breakdown and the category column added for the loans. |
| `Dashboard.CategoryExposuresPartition` | src/visualization/dashboard.py:199-204 | When every loan has a category, the category exposures add up to total exposure. |
| `Dashboard.SharesSumToHundred` | src/visualization/dashboard.py:204 | Shares taken against the sum of the rows' exposures add up to 100. |
| `Dashboard.PdsInRangeAreCategorised` | src/visualization/dashboard.py:194-196 | Every PD in (0, 1] gets a category. |
| `Dashboard.ExposureSharesPartition` | src/visualization/dashboard.py:188-204 | When every PD is in (0, 1], the category exposures add up to total exposure. For a non-zero total the Exposure % column adds up to 100. |
| `Dashboard.ZeroExposureUndefined` | src/visualization/dashboard.py:191-212 | With zero total exposure, the weighted average PD, the overall EL percentage and every share are undefined. No division fails. |
| `Dashboard.EmptyCategoryUndefined` | src/visualization/dashboard.py:199-205 | A category with no loans shows EAD 0 and EL 0, and its EL percentage (0/0) is undefined. |
| `Dashboard.ExpectedLossByCategory` | src/visualization/dashboard.py:120-125 | One expected-loss row per category, in category order, empty categories included. Each row's EL is the sum over the loans whose PD falls in that category's bin. |
| `Dashboard.LossChartMatchesTable` | src/visualization/dashboard.py:120-125 | The loss-by-category chart and the metrics table give every category the same EL sum. |
| `Dashboard.InsertSorted` | src/visualization/dashboard.py:87 | Inserting a key keeps the keys strictly increasing and adds exactly that key. |
| `Dashboard.DistinctSorted` | src/visualization/dashboard.py:87 | The group keys are strictly increasing and are exactly the values of the column. |
| `Dashboard.ExposureByRiskWeight` | src/visualization/dashboard.py:81-87 | One group per distinct weight, in increasing weight order. Every weight of the column has a group, and each group's EAD is the sum over the loans with that weight. |
| `Dashboard.ExposureByRiskWeightPreservesTotal` | src/visualization/dashboard.py:81-87 | The grouped exposures add up to ΣEAD. |
| `Common.GroupPartition` | src/visualization/dashboard.py:199-202 | When every key is among a list of distinct keys, the group sums over that list add up to the total. |
| `Common.Percent` | src/visualization/dashboard.py:204-205 | A percentage is undefined exactly when the divisor is 0. Otherwise percentage × divisor = part × 100. |

## Left out

- Model training and PD inference (`calculate_pd` and the model and evaluation modules) are left out because they are classifier calls. PD enters the model as an input column.
- Data loading and feature preparation (CSV reading, one-hot encoding, scaling, imputation) are left out because they have no risk semantics. The loan table enters the model already prepared.
- The interactive dashboard application is left out. It reads a CSV file at start-up and formats HTML tables. Its inline stress and capital recomputation repeats `CalculateStressMetrics` and `CalculateMinimumCapital`.
- Charts, histograms and the column check of the capital chart are left out, as is the currency and percent string formatting of the metrics table. Only the aggregation behind the charts is modelled. One quirk of that formatting is not modelled: the weighted average PD is printed with a "%" sign but is not multiplied by 100.
- IEEE-754 rounding is left out. All arithmetic is exact `real`, so 0.45 × 0.8 is exactly 0.36 and the tier and bin boundaries are exact.
- NaN inputs are not modelled, because a `real` has no NaN. In the source a NaN PD fails all three comparisons and gets weight 1.5. It stays NaN after stress scaling and capping. It gets no risk category, and the column sums skip it.
- Infinite or NaN division results are not modelled as floats. A quotient whose divisor is zero is the `None` ("undefined") result instead.
- `RiskWeights.CalculateEad`: if the original table has duplicate row labels, a label lookup there returns several rows. The model takes the first, because duplicate labels are outside the tables this pipeline builds.
- `RiskWeights.CalculateRwa`, `RiskWeights.ExpectedLoss`, `StressTesting.CalculateStressMetrics` and `Dashboard.CreateRiskMetricsTable` require their columns to have equal lengths. Array broadcasting and index-aligned assignment of mismatched series are not modelled.
- `RiskWeights.EstimateLgd`: without the home-ownership column the source returns the scalar 0.45. The model returns a column of 0.45 with one entry per row.
- `Dashboard.CreateRiskMetricsTable`: the source adds the category column to the caller's table in place. The model returns the column in its result instead.
- `Dashboard.RiskSummary`: it assumes the grouping lists all four categories, including empty ones with zero sums. That is the behaviour of grouping by a categorical column without restricting to observed categories.
