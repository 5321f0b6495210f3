# Heart-disease dashboard: data pipeline, scoring and dashboards

This project models the computational core of a React dashboard about heart
disease. The modelled parts are:

- the synthetic patient population: the per-record disease probability, the
  derived bands and the 550-iteration generator;
- the query helpers `filterData` and `calculateStatistics`;
- the personal risk assessment: the score, its level, the factor flags and the
  healthy benchmarks;
- the recommendation list built from that assessment, and the gauge that
  shows the score;
- the aggregations behind the clinical dashboard (age groups, gender slices,
  scatter series, high-risk groups) and the public-health dashboard (rural and
  urban rows, activity levels, regional summaries).

Decimal quantities are fixed point. A probability is in hundredths (0.35 is
35), BMI is in tenths (25.0 is 250), and a prevalence is in tenths of a
percent (27.3% is 273). The gauge's reading is an exact `real`.

Modules:

- `Wrappers`: `Option`.
- `Sequences`: `Where` (order-preserving filter), `Count` and their laws.
- `DecimalText`: the `${n}` rendering of integers and the "systolic/diastolic"
  text, with read-back functions.
- `HeartDiseaseData`: records, probability, bands, the generator, `filterData`
  and `calculateStatistics`.
- `AnitaPage`: the form, the risk assessment and the benchmarks.
- `HealthRecommendations`: the recommendation list and `getIconColor`.
- `RiskGaugeChart`: the normalised score and the colours.
- `DrSharmaPage`: the filter state and the clinical aggregations.
- `RameshPage`: the regional and activity aggregations.

The code is imperative in five places, and there the model keeps that form.
`calculateDiseaseProbability` adjusts a running probability. The generator
pushes records in a loop. `riskAssessment` accumulates a score and sets flags.
The recommendation list and `highRiskGroups` are grown by conditional pushes.
Each of these is a `method` proved equal to a specification function. The
properties are then proved about that function.

Randomness is an input. Each iteration of the generator takes a `Draw`: the
already-rounded raw age, BMI, cholesterol and systolic values before clamping,
the four categorical picks, and `roll`, which is `floor(100 * Math.random())`.
With these, `Math.random() < p` holds exactly when `roll < p` in hundredths.

An unguarded division 0/0 yields NaN in the code. This happens in
`calculateStatistics` and in the regional rows and summaries. The model writes
that prevalence as an `Option`, with `None` standing for NaN: with no
records the division is 0/0, so the prevalence is NaN, not 0. The guarded prevalences
(`ageGroupData`, `lifestyleData`) are 0 for an empty group, as written.

## Model

| member | source | states |
|---|---|---|
| HeartDiseaseData.DiseaseProbability | apps/web/src/data/heartDiseaseData.js:14-44 | the probability lies in [0, 95] hundredths and is min(raw, 95), where raw is base 10 plus the five band contributions: it never exceeds raw, and is either raw or the cap |
| HeartDiseaseData.CalculateDiseaseProbability | apps/web/src/data/heartDiseaseData.js:14-44 | the running-adjustment code returns exactly `DiseaseProbability`, hence a value in [0, 95] |
| HeartDiseaseData.AgeContribution | apps/web/src/data/heartDiseaseData.js:17-21 | the age band adds between 0 and 35 hundredths |
| HeartDiseaseData.CholesterolContribution | apps/web/src/data/heartDiseaseData.js:23-26 | the cholesterol band adds between 0 and 25 hundredths |
| HeartDiseaseData.BmiContribution | apps/web/src/data/heartDiseaseData.js:28-31 | the BMI band adds between 0 and 20 hundredths |
| HeartDiseaseData.SmokingContribution | apps/web/src/data/heartDiseaseData.js:33-35 | smoking adds between 0 and 30 hundredths |
| HeartDiseaseData.ActivityContribution | apps/web/src/data/heartDiseaseData.js:37-41 | activity moves the probability by between -10 and +15 hundredths |
| HeartDiseaseData.RawProbabilityExceedsCap | apps/web/src/data/heartDiseaseData.js:14-43 | the uncapped sum reaches 135 for the worst inputs, and the cap brings it to 95 |
| HeartDiseaseData.ProbabilityReachesZero | apps/web/src/data/heartDiseaseData.js:14-41 | the lowest probability, 0, is reached: base 10 less 10 for Active, with no other factor |
| HeartDiseaseData.DiseaseProbabilityMonotone | apps/web/src/data/heartDiseaseData.js:17-31 | a greater age, cholesterol or BMI never lowers the probability |
| HeartDiseaseData.AgeGroupOf | apps/web/src/data/heartDiseaseData.js:88 | each of the six age groups holds exactly its strict-`<` age band, so every age has one group |
| HeartDiseaseData.BmiCategoryOf | apps/web/src/data/heartDiseaseData.js:89 | each BMI category holds exactly its band: below 18.5, below 25, below 30, then Obese |
| HeartDiseaseData.CholesterolLevelOf | apps/web/src/data/heartDiseaseData.js:90 | Normal below 200, Borderline High below 240, High from 240 |
| HeartDiseaseData.BpCategoryOf | apps/web/src/data/heartDiseaseData.js:91 | Normal below 120, Elevated below 130, Stage 1 below 140, Stage 2 from 140 |
| HeartDiseaseData.BoundariesBelongAbove | apps/web/src/data/heartDiseaseData.js:88-91 | BMI 25.0 is Overweight, cholesterol 240 is High, systolic 140 is Stage 2, and age 30 is in '31-40' |
| HeartDiseaseData.Diastolic | apps/web/src/data/heartDiseaseData.js:64 | the diastolic value is the integer nearest to 0.65 × systolic |
| HeartDiseaseData.Clamp | apps/web/src/data/heartDiseaseData.js:49 | `Math.max(lo, Math.min(hi, x))` lies in [lo, hi]: x when inside, the nearer end otherwise |
| HeartDiseaseData.MakeRecord | apps/web/src/data/heartDiseaseData.js:48-92 | the record is well formed (ranges and derived fields); its age, BMI, cholesterol and systolic are the draw's values clamped to [20, 90], [16.0, 45.0], [150, 350] and [90, 200]; it carries the draw's picks, and is diseased exactly when the roll is below its probability |
| HeartDiseaseData.GenerateHeartDiseaseData | apps/web/src/data/heartDiseaseData.js:3-96 | the loop yields exactly 550 records; record i is `MakeRecord(i + 1, draw i)`, so its id is its 1-based position and it is well formed |
| HeartDiseaseData.RecordBloodPressureText | apps/web/src/data/heartDiseaseData.js:64-80 | a record's `bloodPressure` text reads back as its systolic value and round(0.65 × systolic) |
| HeartDiseaseData.Matches | apps/web/src/data/heartDiseaseData.js:102-121 | a record passes exactly when it is inside the inclusive age range, if one is given, and equals every present, non-empty, non-'All' categorical value |
| HeartDiseaseData.FilterData | apps/web/src/data/heartDiseaseData.js:101-123 | the result is no longer than the input, and every kept record matches |
| HeartDiseaseData.FilterKeepsExactlyMatches | apps/web/src/data/heartDiseaseData.js:101-123 | a record is in the result exactly when it is in the input and matches |
| HeartDiseaseData.FilterPreservesOrder | apps/web/src/data/heartDiseaseData.js:101-123 | the result is a subsequence of the input, in the input's order |
| HeartDiseaseData.FilterWithNoConstraint | apps/web/src/data/heartDiseaseData.js:101-123 | a filter with no age range and every other key absent, empty or 'All' returns the input unchanged |
| HeartDiseaseData.FilterKeepsAllInRange | apps/web/src/data/heartDiseaseData.js:103-121 | when every record is in the age range and no categorical key constrains, nothing is dropped |
| HeartDiseaseData.FilterCommutes | apps/web/src/data/heartDiseaseData.js:101-123 | applying two filters in sequence gives the same list in either order |
| HeartDiseaseData.FilterThenFilter | apps/web/src/data/heartDiseaseData.js:101-123 | two filters in sequence keep exactly the input records matching both |
| HeartDiseaseData.CountDiseased | apps/web/src/data/heartDiseaseData.js:127 | the number of diseased records is at most the number of records |
| HeartDiseaseData.PrevalenceTenths | apps/web/src/data/heartDiseaseData.js:128 | for a non-empty group, `(diseased/total*100).toFixed(1)` in tenths: 1000·diseased/total rounded half up, between 0 and 1000 |
| HeartDiseaseData.GuardedPrevalence | apps/web/src/pages/DrSharmaPage.jsx:37 | the guarded prevalence is 0 for an empty group and the rounded percentage otherwise |
| HeartDiseaseData.CalculateStatistics | apps/web/src/data/heartDiseaseData.js:125-135 | total is the length; diseased ≤ total; healthy = total − diseased = the number of 'No' records; prevalence is NaN exactly when total is 0, otherwise the rounded percentage |
| HeartDiseaseData.FilterShrinksStatistics | apps/web/src/data/heartDiseaseData.js:101-135 | filtering never raises the total or the diseased count |
| DecimalText.IntTextRoundTrip | apps/web/src/data/heartDiseaseData.js:80 | reading back the decimal text of any integer gives that integer |
| DecimalText.BloodPressureRoundTrip | apps/web/src/data/heartDiseaseData.js:80 | the text `${systolic}/${diastolic}` reads back as the pair it was built from |
| DecimalText.BloodPressureTextInjective | apps/web/src/data/heartDiseaseData.js:80 | two readings with the same text are the same reading |
| AnitaPage.HandleInputChange | apps/web/src/pages/AnitaPage.jsx:21-23 | the named field takes the new value and every other field keeps its value |
| AnitaPage.AgePoints | apps/web/src/pages/AnitaPage.jsx:38-44 | 2 exactly when age > 65, 1 exactly when 50 < age ≤ 65, 0 otherwise |
| AnitaPage.CholesterolPoints | apps/web/src/pages/AnitaPage.jsx:47-53 | 2 exactly when cholesterol > 240, 1 when 200 < cholesterol ≤ 240, 0 otherwise |
| AnitaPage.BloodPressurePoints | apps/web/src/pages/AnitaPage.jsx:56-62 | 2 when systolic > 140 or diastolic > 90; otherwise 1 when systolic > 130 or diastolic > 85; otherwise 0 |
| AnitaPage.BmiPoints | apps/web/src/pages/AnitaPage.jsx:65-71 | 2 exactly when BMI > 30, 1 when 25 < BMI ≤ 30, 0 otherwise |
| AnitaPage.SmokingPoints | apps/web/src/pages/AnitaPage.jsx:74-80 | 3 for Current, 1 for Former, 0 for Never |
| AnitaPage.ActivityPoints | apps/web/src/pages/AnitaPage.jsx:83-89 | 2 for Sedentary, 1 for Light, 0 for Moderate and Active |
| AnitaPage.RiskScore | apps/web/src/pages/AnitaPage.jsx:27-89 | the sum of the six contributions lies between 0 and 13 |
| AnitaPage.LevelFor | apps/web/src/pages/AnitaPage.jsx:92-94 | High exactly when score ≥ 8, Medium exactly when 4 ≤ score < 8, Low exactly when score < 4 |
| AnitaPage.FactorsOf | apps/web/src/pages/AnitaPage.jsx:28-89 | each flag is set exactly when the form's value crosses that factor's lower threshold |
| AnitaPage.AssessRisk | apps/web/src/pages/AnitaPage.jsx:26-97 | the memoised assessment as written returns the score, level and flags of `Assessment(form)` |
| AnitaPage.TallyFactors | apps/web/src/pages/AnitaPage.jsx:27-89 | the running score and the flags set block by block equal `RiskScore(form)` and `FactorsOf(form)` |
| AnitaPage.FlagsMatchContributions | apps/web/src/pages/AnitaPage.jsx:27-89 | each flag is raised exactly when its factor added a positive amount to the score |
| AnitaPage.NoFlagsMeansLow | apps/web/src/pages/AnitaPage.jsx:27-94 | with no flag raised the score is 0 and the level Low |
| AnitaPage.RiskScoreMonotone | apps/web/src/pages/AnitaPage.jsx:38-71 | raising age, cholesterol, BMI, systolic or diastolic never lowers the score, and never takes the level out of High |
| AnitaPage.CholesterolStatus | apps/web/src/pages/AnitaPage.jsx:101 | 'good' exactly when cholesterol < 200, 'warning' otherwise |
| AnitaPage.BloodPressureStatus | apps/web/src/pages/AnitaPage.jsx:102 | 'good' exactly when systolic < 120 and diastolic < 80, 'warning' otherwise |
| AnitaPage.BmiStatus | apps/web/src/pages/AnitaPage.jsx:103 | 'good' exactly when 18.5 ≤ BMI ≤ 24.9, 'warning' otherwise |
| AnitaPage.HealthyBenchmarks | apps/web/src/pages/AnitaPage.jsx:99-104 | four rows (Age, Cholesterol, Blood Pressure, BMI); Age is 'info', and the other three are 'good' exactly under their thresholds |
| AnitaPage.GoodBenchmarkScoresNothing | apps/web/src/pages/AnitaPage.jsx:37-103 | a benchmark shown as good means its factor adds nothing to the score and raises no flag |
| AnitaPage.InitialFormOnThresholds | apps/web/src/pages/AnitaPage.jsx:11-19 | the form the page opens with scores 0, raises no flag and is Low, while its cholesterol, blood-pressure and BMI benchmarks all show as warnings, since it sits on the 200, 120/80 and 25.0 thresholds |
| HealthRecommendations.Item | apps/web/src/components/HealthRecommendations.jsx:9-71 | the cholesterol, blood-pressure and smoking items are alerts; the closing item is the only success; age, BMI and activity are warnings |
| HealthRecommendations.BuildRecommendations | apps/web/src/components/HealthRecommendations.jsx:6-71 | the list grown push by push equals `Recommendations(riskFactors, riskLevel)` |
| HealthRecommendations.PushedIsItemsOfFlagged | apps/web/src/components/HealthRecommendations.jsx:9-61 | pushing branch by branch yields the items of the flagged factors, in branch order |
| HealthRecommendations.RecommendationsAreFlaggedItems | apps/web/src/components/HealthRecommendations.jsx:6-71 | the list is the items of the flagged factors in branch order, then the success item when the level is Low |
| HealthRecommendations.RecommendationCount | apps/web/src/components/HealthRecommendations.jsx:6-71 | the length is the number of raised flags, plus 1 when the level is Low |
| HealthRecommendations.TopicsOfRecommendations | apps/web/src/components/HealthRecommendations.jsx:6-71 | the list's topics are the flagged factors in branch order, then the closing topic when the level is Low |
| HealthRecommendations.ItemPresentIffFlagged | apps/web/src/components/HealthRecommendations.jsx:9-71 | a factor's item is present exactly when its flag is raised; the closing item is present exactly when the level is Low, and is then last |
| HealthRecommendations.ItemTypes | apps/web/src/components/HealthRecommendations.jsx:14-69 | every item in the list is an alert, a warning or a success according to its factor |
| HealthRecommendations.ItemsInFixedOrder | apps/web/src/components/HealthRecommendations.jsx:9-71 | the items appear in the fixed order age, cholesterol, blood pressure, BMI, smoking, activity, each at most once, with the closing item last |
| HealthRecommendations.NeverEmptyForAssessedForm | apps/web/src/components/HealthRecommendations.jsx:83-88 | for any assessed form the list is non-empty, so the 'Excellent Health Profile' branch is never shown |
| HealthRecommendations.IconColor | apps/web/src/components/HealthRecommendations.jsx:73-77 | green for 'success', yellow for 'warning', red for anything else |
| HealthRecommendations.IconColorPerType | apps/web/src/components/HealthRecommendations.jsx:73-77 | alerts, and only alerts, get red; successes, and only successes, get green |
| RiskGaugeChart.NormalizedScore | apps/web/src/components/RiskGaugeChart.jsx:6 | the reading is at most 100, non-negative for a non-negative score, and is either 100 or score/15 × 100 |
| RiskGaugeChart.NormalizedScoreCapped | apps/web/src/components/RiskGaugeChart.jsx:6 | the reading is 100 exactly when the score is at least 15 |
| RiskGaugeChart.NormalizedScoreMonotone | apps/web/src/components/RiskGaugeChart.jsx:6 | a higher score never gives a lower reading |
| RiskGaugeChart.AssessedScoreNeverCapped | apps/web/src/components/RiskGaugeChart.jsx:6 | for any assessed form the reading is below 100 and is the exact share score/15 × 100 |
| RiskGaugeChart.FillColor | apps/web/src/components/RiskGaugeChart.jsx:12 | green for 'Low', amber for 'Medium', red for any other level text |
| RiskGaugeChart.RiskColor | apps/web/src/components/RiskGaugeChart.jsx:16-20 | `text-green-600` for 'Low', `text-yellow-600` for 'Medium', `text-red-600` otherwise |
| RiskGaugeChart.ColoursAgree | apps/web/src/components/RiskGaugeChart.jsx:12-20 | two level texts share a fill exactly when they share a text colour |
| RiskGaugeChart.LevelsGetDistinctFills | apps/web/src/components/RiskGaugeChart.jsx:12 | the three assessed levels get three different fills |
| DrSharmaPage.HandleFilterChange | apps/web/src/pages/DrSharmaPage.jsx:20-22 | the named key takes the value and every other key is kept |
| DrSharmaPage.ChangeIdempotent | apps/web/src/pages/DrSharmaPage.jsx:20-22 | applying the same change twice leaves the filters as one application does |
| DrSharmaPage.AllWidensSelection | apps/web/src/pages/DrSharmaPage.jsx:20-24 | setting a categorical key to 'All' never drops a record the filters kept |
| DrSharmaPage.InitialFiltersKeepAll | apps/web/src/pages/DrSharmaPage.jsx:12-18 | the initial filters keep every record the generator can produce |
| DrSharmaPage.AgeGroupRowFor | apps/web/src/pages/DrSharmaPage.jsx:30-38 | a row's total is its group's size and its diseased count the number of diseased records in the group (so ≤ total); the prevalence is 0 for an empty group, else the rounded percentage |
| DrSharmaPage.AgeGroupData | apps/web/src/pages/DrSharmaPage.jsx:28-40 | one row per group, in the fixed order '20-30' to '71+' |
| DrSharmaPage.AgeGroupsListEachOnce | apps/web/src/pages/DrSharmaPage.jsx:29 | the group list names every age group, each once |
| DrSharmaPage.AgeGroupTotalsPartition | apps/web/src/pages/DrSharmaPage.jsx:28-40 | the rows' totals add up to the number of filtered records |
| DrSharmaPage.GenderData | apps/web/src/pages/DrSharmaPage.jsx:43-50 | a Male slice in blue holding the number of diseased men, then a Female slice in pink holding the number of diseased women; each at most the diseased count |
| DrSharmaPage.GenderSlicesCoverDiseased | apps/web/src/pages/DrSharmaPage.jsx:43-50 | the two slices add up to the diseased count |
| DrSharmaPage.ScatterData | apps/web/src/pages/DrSharmaPage.jsx:53-59 | one point per filtered record, in the same order, carrying its BMI, cholesterol and status |
| DrSharmaPage.DiseasedSeriesSize | apps/web/src/pages/DrSharmaPage.jsx:208 | the 'Disease Present' series has one point per diseased record |
| DrSharmaPage.SeriesPartitionPoints | apps/web/src/pages/DrSharmaPage.jsx:206-215 | the 'Yes' and 'No' series together hold every point once |
| DrSharmaPage.HighRiskGroups | apps/web/src/pages/DrSharmaPage.jsx:62-90 | the list grown by conditional pushes equals `HighRiskGroupsOf(filteredData)` |
| DrSharmaPage.ListedIffMembers | apps/web/src/pages/DrSharmaPage.jsx:62-90 | a group is listed exactly when some filtered record belongs to it, and its count is then that positive number |
| DrSharmaPage.HighRiskGroupsShape | apps/web/src/pages/DrSharmaPage.jsx:62-90 | at most three groups, in the order tested, each at most once, each count at most the diseased count |
| RameshPage.RegionStatsFor | apps/web/src/pages/RameshPage.jsx:66-84 | a region's total is its size and its diseased count the number of diseased records in the region (so ≤ total); the prevalence is NaN exactly when the region is empty, else the rounded percentage |
| RameshPage.RegionalData | apps/web/src/pages/RameshPage.jsx:27-48 | two rows, Rural then Urban, each with diseased ≤ total |
| RameshPage.RegionsPartitionPopulation | apps/web/src/pages/RameshPage.jsx:27-48 | the Rural and Urban totals add up to the population |
| RameshPage.SummariesMatchRows | apps/web/src/pages/RameshPage.jsx:27-84 | `ruralStats` and `urbanStats` show the same total, diseased count and prevalence as the regional rows |
| RameshPage.RegionalPrevalenceDefinedIffNonEmpty | apps/web/src/pages/RameshPage.jsx:39-45 | a regional prevalence is defined exactly when its region has records |
| RameshPage.ActivityRowFor | apps/web/src/pages/RameshPage.jsx:53-61 | a row's total is its level's size and its diseased count the number of diseased records at that level (so ≤ total); the prevalence is 0 for an empty level, else the rounded percentage |
| RameshPage.LifestyleData | apps/web/src/pages/RameshPage.jsx:51-63 | one row per activity level, in the order Sedentary, Light, Moderate, Active |
| RameshPage.ActivityLevelsListEachOnce | apps/web/src/pages/RameshPage.jsx:52 | the level list names every activity level, each once |
| RameshPage.ActivityTotalsPartition | apps/web/src/pages/RameshPage.jsx:51-63 | the rows' totals add up to the population |

## Left out

- Sampling with `Math.random`, and the spread formulas that turn a random
  number into a raw value (`apps/web/src/data/heartDiseaseData.js:48-68, 72`).
  Each iteration takes a `Draw` instead. It holds the rounded raw values, the
  categorical picks and the disease roll.
- Binary floating point. Probabilities, BMI and prevalence are scaled
  integers, and the gauge uses exact reals.
  - `toFixed(1)` is modelled as rounding half up. The binary value can fall on
    the other side of a tie.
  - `Math.round(systolic * 0.65)` is modelled with exact arithmetic. It can
    differ at the ties where systolic ≡ 10 (mod 20).
  - A generated BMI is taken as a whole number of tenths. This is what
    `parseFloat(bmiBase.toFixed(1))` yields up to binary representation.
- The prevalence is kept as a number in tenths. The code's `toFixed` string
  (`ageGroupData`, `regionalData`) and its `parseFloat` back to a number
  (`calculateStatistics`) are not modelled as text.
- `trendData` (`apps/web/src/pages/RameshPage.jsx:12-24`): synthetic values
  from `Math.sin`, with no relation to the population.
- `100 - stats.prevalence` on the clinical dashboard, and the pie chart's
  percentage labels: floating-point display arithmetic.
- Rendering: the JSX markup, the charts, the animations, the page titles and
  the icons. Each recommendation's description and icon are also left out.
  An item carries its topic, its title and its type.
- The benchmarks' `current` column: a copy of the form's values for display.
- The React machinery. `useState` setters are plain record updates, and
  `useMemo` values are functions of their inputs.
- The module-level `heartDiseaseData` constant. Every function that reads the
  population takes it as a parameter.
- Routing, the filter panel's controls, the footer and the home page: markup
  and callback forwarding only.
- HealthRecommendations.BuildRecommendations: each factor branch appends
  either its item or nothing in one assignment, where the component runs an
  `if` around a `push`. The resulting list is the same.
- AnitaPage.AssessRisk: the six score-and-flag blocks sit in the helper
  method `TallyFactors`, which `AssessRisk` calls before choosing the level.
