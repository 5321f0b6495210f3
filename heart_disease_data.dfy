/** The synthetic patient population and the query layer over it
    (apps/web/src/data/heartDiseaseData.js).

    Decimal quantities are fixed point: a disease probability is an integer
    number of hundredths (0.35 is 35), a BMI an integer number of tenths
    (24.9 is 249) and a prevalence an integer number of tenths of a percent
    (27.3% is 273). The random draws of the generator are inputs. */
module HeartDiseaseData {
  import opened Wrappers
  import opened Sequences
  import opened DecimalText

  // ---------------------------------------------------------------------------
  // Categorical values. Records hold strings in the source; each enumeration
  // here carries the exact string as its Label().

  datatype Gender = Male | Female
  {
    function Label(): string
    {
      match this
      case Male => "Male"
      case Female => "Female"
    }
  }

  datatype SmokingStatus = Never | Former | Current
  {
    function Label(): string
    {
      match this
      case Never => "Never"
      case Former => "Former"
      case Current => "Current"
    }
  }

  datatype PhysicalActivity = Sedentary | Light | Moderate | Active
  {
    function Label(): string
    {
      match this
      case Sedentary => "Sedentary"
      case Light => "Light"
      case Moderate => "Moderate"
      case Active => "Active"
    }
  }

  datatype Region = Rural | Urban
  {
    function Label(): string
    {
      match this
      case Rural => "Rural"
      case Urban => "Urban"
    }
  }

  datatype DiseaseStatus = Yes | No

  datatype AgeGroup = Age20To30 | Age31To40 | Age41To50 | Age51To60 | Age61To70 | Age71Plus
  {
    function Label(): string
    {
      match this
      case Age20To30 => "20-30"
      case Age31To40 => "31-40"
      case Age41To50 => "41-50"
      case Age51To60 => "51-60"
      case Age61To70 => "61-70"
      case Age71Plus => "71+"
    }
  }

  datatype BmiCategory = Underweight | Normal | Overweight | Obese
  {
    function Label(): string
    {
      match this
      case Underweight => "Underweight"
      case Normal => "Normal"
      case Overweight => "Overweight"
      case Obese => "Obese"
    }
  }

  datatype CholesterolLevel = Normal | BorderlineHigh | High
  {
    function Label(): string
    {
      match this
      case Normal => "Normal"
      case BorderlineHigh => "Borderline High"
      case High => "High"
    }
  }

  datatype BpCategory = Normal | Elevated | Stage1 | Stage2
  {
    function Label(): string
    {
      match this
      case Normal => "Normal"
      case Elevated => "Elevated"
      case Stage1 => "Stage 1"
      case Stage2 => "Stage 2"
    }
  }

  /** One patient record as the generator pushes it. `bmi` is in tenths. */
  datatype Patient = Patient(
    id: int,
    age: int,
    gender: Gender,
    bmi: int,
    cholesterol: int,
    bloodPressure: string,
    systolic: int,
    diastolic: int,
    smokingStatus: SmokingStatus,
    physicalActivity: PhysicalActivity,
    region: Region,
    diseaseStatus: DiseaseStatus,
    ageGroup: AgeGroup,
    bmiCategory: BmiCategory,
    cholesterolLevel: CholesterolLevel,
    bpCategory: BpCategory)

  /** The values one iteration of the generator samples, after rounding and
      before clamping: `age` is Math.round(ageBase), `bmi` is
      bmiBase.toFixed(1) in tenths, `cholesterol` and `systolic` the rounded
      bases; the four categorical picks; and `roll`, which is
      floor(100 * Math.random()) of the disease draw, so that
      `Math.random() < p / 100` holds exactly when `roll < p`. */
  datatype Draw = Draw(
    age: int,
    gender: Gender,
    bmi: int,
    cholesterol: int,
    systolic: int,
    smokingStatus: SmokingStatus,
    physicalActivity: PhysicalActivity,
    region: Region,
    roll: int)

  /** The generator's loop bound. */
  const RecordCount: nat := 550

  // ---------------------------------------------------------------------------
  // Disease-probability model: base 0.10 plus one first-match band per factor,
  // capped at 0.95. All values in hundredths.

  const BaseProbability: int := 10
  const ProbabilityCap: int := 95

  function AgeContribution(age: int): (c: int)
    ensures 0 <= c <= 35
  {
    if age > 65 then 35 else if age > 55 then 25 else if age > 45 then 15 else if age > 35 then 5 else 0
  }

  function CholesterolContribution(cholesterol: int): (c: int)
    ensures 0 <= c <= 25
  {
    if cholesterol > 280 then 25 else if cholesterol > 240 then 15 else if cholesterol > 200 then 8 else 0
  }

  /** `bmi` in tenths: 35 is 350. */
  function BmiContribution(bmi: int): (c: int)
    ensures 0 <= c <= 20
  {
    if bmi > 350 then 20 else if bmi > 300 then 12 else if bmi > 250 then 5 else 0
  }

  function SmokingContribution(smoking: SmokingStatus): (c: int)
    ensures 0 <= c <= 30
  {
    match smoking
    case Current => 30
    case Former => 10
    case Never => 0
  }

  function ActivityContribution(activity: PhysicalActivity): (c: int)
    ensures -10 <= c <= 15
  {
    match activity
    case Sedentary => 15
    case Light => 8
    case Moderate => -5
    case Active => -10
  }

  /** The probability, in hundredths, of a record with these risk factors
      having heart disease: the base plus the five band contributions, or the
      95 cap when that sum is higher. It is never negative although no lower
      clamp is applied. */
  function DiseaseProbability(age: int, cholesterol: int, bmi: int,
                              smoking: SmokingStatus, activity: PhysicalActivity): (p: int)
    ensures 0 <= p <= ProbabilityCap
    ensures p == ProbabilityCap || p == BaseProbability + AgeContribution(age)
      + CholesterolContribution(cholesterol) + BmiContribution(bmi)
      + SmokingContribution(smoking) + ActivityContribution(activity)
    ensures p <= BaseProbability + AgeContribution(age)
      + CholesterolContribution(cholesterol) + BmiContribution(bmi)
      + SmokingContribution(smoking) + ActivityContribution(activity)
  {
    var raw := BaseProbability + AgeContribution(age) + CholesterolContribution(cholesterol)
      + BmiContribution(bmi) + SmokingContribution(smoking) + ActivityContribution(activity);
    if raw < ProbabilityCap then raw else ProbabilityCap
  }

  /** `calculateDiseaseProbability` as written: a mutable probability adjusted
      factor by factor, then `Math.min(probability, 0.95)`. */
  method CalculateDiseaseProbability(age: int, cholesterol: int, bmi: int,
                                     smoking: SmokingStatus, activity: PhysicalActivity)
    returns (probability: int)
    ensures probability == DiseaseProbability(age, cholesterol, bmi, smoking, activity)
    ensures 0 <= probability <= ProbabilityCap
  {
    probability := 10;

    if age > 65 { probability := probability + 35; }
    else if age > 55 { probability := probability + 25; }
    else if age > 45 { probability := probability + 15; }
    else if age > 35 { probability := probability + 5; }
    assert probability == BaseProbability + AgeContribution(age);

    if cholesterol > 280 { probability := probability + 25; }
    else if cholesterol > 240 { probability := probability + 15; }
    else if cholesterol > 200 { probability := probability + 8; }
    assert probability == BaseProbability + AgeContribution(age) + CholesterolContribution(cholesterol);

    if bmi > 350 { probability := probability + 20; }
    else if bmi > 300 { probability := probability + 12; }
    else if bmi > 250 { probability := probability + 5; }
    ghost var sofar := BaseProbability + AgeContribution(age) + CholesterolContribution(cholesterol) + BmiContribution(bmi);
    assert probability == sofar;

    if smoking == Current { probability := probability + 30; }
    else if smoking == Former { probability := probability + 10; }
    assert probability == sofar + SmokingContribution(smoking);

    if activity == Sedentary { probability := probability + 15; }
    else if activity == Light { probability := probability + 8; }
    else if activity == Moderate { probability := probability - 5; }
    else if activity == Active { probability := probability - 10; }
    assert probability == sofar + SmokingContribution(smoking) + ActivityContribution(activity);

    if probability > 95 { probability := 95; }
  }

  /** Before the cap, the factors can add up to 1.35: the cap is reached. */
  lemma RawProbabilityExceedsCap()
    ensures BaseProbability + AgeContribution(90) + CholesterolContribution(350) + BmiContribution(450)
      + SmokingContribution(Current) + ActivityContribution(Sedentary) == 135
    ensures DiseaseProbability(90, 350, 450, Current, Sedentary) == 95
  {
  }

  /** The floor 0 is reached: base 0.10 less 0.10 for Active, with no other factor. */
  lemma ProbabilityReachesZero()
    ensures DiseaseProbability(20, 150, 160, Never, Active) == 0
  {
  }

  /** Older, higher cholesterol or heavier never lowers the probability. */
  lemma DiseaseProbabilityMonotone(age1: int, age2: int, chol1: int, chol2: int, bmi1: int, bmi2: int,
                                   smoking: SmokingStatus, activity: PhysicalActivity)
    requires age1 <= age2 && chol1 <= chol2 && bmi1 <= bmi2
    ensures DiseaseProbability(age1, chol1, bmi1, smoking, activity)
         <= DiseaseProbability(age2, chol2, bmi2, smoking, activity)
  {
  }

  // ---------------------------------------------------------------------------
  // Derived fields of a record: strict `<` bands, evaluated lowest first.

  function AgeGroupOf(age: int): (g: AgeGroup)
    ensures g == Age20To30 <==> age < 30
    ensures g == Age31To40 <==> 30 <= age < 40
    ensures g == Age41To50 <==> 40 <= age < 50
    ensures g == Age51To60 <==> 50 <= age < 60
    ensures g == Age61To70 <==> 60 <= age < 70
    ensures g == Age71Plus <==> 70 <= age
  {
    if age < 30 then Age20To30 else if age < 40 then Age31To40 else if age < 50 then Age41To50
    else if age < 60 then Age51To60 else if age < 70 then Age61To70 else Age71Plus
  }

  /** `bmi` in tenths: the bands are < 18.5, < 25, < 30. */
  function BmiCategoryOf(bmi: int): (c: BmiCategory)
    ensures c == Underweight <==> bmi < 185
    ensures c == BmiCategory.Normal <==> 185 <= bmi < 250
    ensures c == Overweight <==> 250 <= bmi < 300
    ensures c == Obese <==> 300 <= bmi
  {
    if bmi < 185 then Underweight else if bmi < 250 then BmiCategory.Normal
    else if bmi < 300 then Overweight else Obese
  }

  function CholesterolLevelOf(cholesterol: int): (l: CholesterolLevel)
    ensures l == CholesterolLevel.Normal <==> cholesterol < 200
    ensures l == BorderlineHigh <==> 200 <= cholesterol < 240
    ensures l == High <==> 240 <= cholesterol
  {
    if cholesterol < 200 then CholesterolLevel.Normal else if cholesterol < 240 then BorderlineHigh else High
  }

  function BpCategoryOf(systolic: int): (c: BpCategory)
    ensures c == BpCategory.Normal <==> systolic < 120
    ensures c == Elevated <==> 120 <= systolic < 130
    ensures c == Stage1 <==> 130 <= systolic < 140
    ensures c == Stage2 <==> 140 <= systolic
  {
    if systolic < 120 then BpCategory.Normal else if systolic < 130 then Elevated
    else if systolic < 140 then Stage1 else Stage2
  }

  /** A value exactly on a boundary falls into the upper band. */
  lemma BoundariesBelongAbove()
    ensures BmiCategoryOf(250) == Overweight
    ensures CholesterolLevelOf(240) == High
    ensures BpCategoryOf(140) == Stage2
    ensures AgeGroupOf(30) == Age31To40
  {
  }

  /** `Math.round(systolic * 0.65)`: the integer nearest to 13/20 of the
      systolic value, a half rounded up. */
  function Diastolic(systolic: int): (d: int)
    ensures 20 * d - 10 <= 13 * systolic < 20 * d + 10
  {
    (13 * systolic + 10) / 20
  }

  /** `Math.max(lo, Math.min(hi, x))`. */
  function Clamp(lo: int, hi: int, x: int): (r: int)
    requires lo <= hi
    ensures lo <= r <= hi
    ensures lo <= x <= hi ==> r == x
    ensures x < lo ==> r == lo
    ensures x > hi ==> r == hi
  {
    if x > hi then hi else if x < lo then lo else x
  }

  /** Every record the generator can push: sampled values in range and every
      derived field the function of its source field. */
  predicate WellFormed(p: Patient)
  {
    && 20 <= p.age <= 90
    && 160 <= p.bmi <= 450
    && 150 <= p.cholesterol <= 350
    && 90 <= p.systolic <= 200
    && p.diastolic == Diastolic(p.systolic)
    && p.bloodPressure == BloodPressureText(p.systolic, p.diastolic)
    && p.ageGroup == AgeGroupOf(p.age)
    && p.bmiCategory == BmiCategoryOf(p.bmi)
    && p.cholesterolLevel == CholesterolLevelOf(p.cholesterol)
    && p.bpCategory == BpCategoryOf(p.systolic)
  }

  /** The record the loop pushes at 1-based position `id` for the draw `d`. */
  function MakeRecord(id: int, d: Draw): (p: Patient)
    ensures WellFormed(p)
    ensures p.id == id
    ensures p.gender == d.gender && p.smokingStatus == d.smokingStatus
    ensures p.physicalActivity == d.physicalActivity && p.region == d.region
    ensures p.age == Clamp(20, 90, d.age) && p.bmi == Clamp(160, 450, d.bmi)
    ensures p.cholesterol == Clamp(150, 350, d.cholesterol) && p.systolic == Clamp(90, 200, d.systolic)
    ensures p.diseaseStatus == Yes
        <==> d.roll < DiseaseProbability(p.age, p.cholesterol, p.bmi, p.smokingStatus, p.physicalActivity)
  {
    var age := Clamp(20, 90, d.age);
    var bmi := Clamp(160, 450, d.bmi);
    var cholesterol := Clamp(150, 350, d.cholesterol);
    var systolic := Clamp(90, 200, d.systolic);
    var diastolic := Diastolic(systolic);
    var hasDisease := d.roll < DiseaseProbability(age, cholesterol, bmi, d.smokingStatus, d.physicalActivity);
    Patient(
      id := id,
      age := age,
      gender := d.gender,
      bmi := bmi,
      cholesterol := cholesterol,
      bloodPressure := BloodPressureText(systolic, diastolic),
      systolic := systolic,
      diastolic := diastolic,
      smokingStatus := d.smokingStatus,
      physicalActivity := d.physicalActivity,
      region := d.region,
      diseaseStatus := if hasDisease then Yes else No,
      ageGroup := AgeGroupOf(age),
      bmiCategory := BmiCategoryOf(bmi),
      cholesterolLevel := CholesterolLevelOf(cholesterol),
      bpCategory := BpCategoryOf(systolic))
  }

  /** `generateHeartDiseaseData`: 550 iterations, each pushing one record built
      from that iteration's draws. */
  method GenerateHeartDiseaseData(draws: seq<Draw>) returns (data: seq<Patient>)
    requires |draws| >= RecordCount
    ensures |data| == RecordCount
    ensures forall i :: 0 <= i < |data| ==> data[i] == MakeRecord(i + 1, draws[i])
    ensures forall i :: 0 <= i < |data| ==> data[i].id == i + 1 && WellFormed(data[i])
  {
    data := [];
    var i := 0;
    while i < 550
      invariant 0 <= i <= 550
      invariant |data| == i
      invariant forall k :: 0 <= k < i ==> data[k] == MakeRecord(k + 1, draws[k])
    {
      var d := draws[i];
      var age := Clamp(20, 90, d.age);
      var bmi := Clamp(160, 450, d.bmi);
      var cholesterol := Clamp(150, 350, d.cholesterol);
      var systolic := Clamp(90, 200, d.systolic);
      var diastolic := Diastolic(systolic);
      var probability := CalculateDiseaseProbability(age, cholesterol, bmi, d.smokingStatus, d.physicalActivity);
      var hasDisease := d.roll < probability;
      data := data + [Patient(
        id := i + 1,
        age := age,
        gender := d.gender,
        bmi := bmi,
        cholesterol := cholesterol,
        bloodPressure := BloodPressureText(systolic, diastolic),
        systolic := systolic,
        diastolic := diastolic,
        smokingStatus := d.smokingStatus,
        physicalActivity := d.physicalActivity,
        region := d.region,
        diseaseStatus := if hasDisease then Yes else No,
        ageGroup := AgeGroupOf(age),
        bmiCategory := BmiCategoryOf(bmi),
        cholesterolLevel := CholesterolLevelOf(cholesterol),
        bpCategory := BpCategoryOf(systolic))];
      i := i + 1;
    }
  }

  /** The blood-pressure text of a well-formed record reads back as its systolic
      value and its diastolic value, 65% of systolic. */
  lemma RecordBloodPressureText(p: Patient)
    requires WellFormed(p)
    ensures ParseBloodPressure(p.bloodPressure) == Some((p.systolic, Diastolic(p.systolic)))
  {
    BloodPressureRoundTrip(p.systolic, p.diastolic);
  }

  // ---------------------------------------------------------------------------
  // Filtering.

  /** A filter object: each key may be absent (None). `ageRange` is [min, max]. */
  datatype FilterSpec = FilterSpec(
    ageRange: Option<(int, int)>,
    gender: Option<string>,
    bmiCategory: Option<string>,
    cholesterolLevel: Option<string>,
    smokingStatus: Option<string>,
    region: Option<string>)

  /** A categorical filter value constrains only when present, non-empty
      (the empty string is falsy) and not 'All'. */
  predicate Constrains(v: Option<string>)
  {
    v.Some? && v.value != "" && v.value != "All"
  }

  predicate Accepts(v: Option<string>, fieldText: string)
  {
    !Constrains(v) || v.value == fieldText
  }

  predicate InAgeRange(range: Option<(int, int)>, age: int)
  {
    range.None? || range.value.0 <= age <= range.value.1
  }

  /** The predicate `filterData` passes to `Array.prototype.filter`: a chain of
      early `return false`s, one per key. */
  function Matches(filters: FilterSpec, p: Patient): (keep: bool)
    ensures keep <==>
      && InAgeRange(filters.ageRange, p.age)
      && Accepts(filters.gender, p.gender.Label())
      && Accepts(filters.bmiCategory, p.bmiCategory.Label())
      && Accepts(filters.cholesterolLevel, p.cholesterolLevel.Label())
      && Accepts(filters.smokingStatus, p.smokingStatus.Label())
      && Accepts(filters.region, p.region.Label())
  {
    if filters.ageRange.Some? && (p.age < filters.ageRange.value.0 || p.age > filters.ageRange.value.1) then false
    else if Constrains(filters.gender) && p.gender.Label() != filters.gender.value then false
    else if Constrains(filters.bmiCategory) && p.bmiCategory.Label() != filters.bmiCategory.value then false
    else if Constrains(filters.cholesterolLevel) && p.cholesterolLevel.Label() != filters.cholesterolLevel.value then false
    else if Constrains(filters.smokingStatus) && p.smokingStatus.Label() != filters.smokingStatus.value then false
    else if Constrains(filters.region) && p.region.Label() != filters.region.value then false
    else true
  }

  /** The filter callback for one filter object. */
  function Matcher(filters: FilterSpec): Patient -> bool
  {
    p => Matches(filters, p)
  }

  function FilterData(data: seq<Patient>, filters: FilterSpec): (r: seq<Patient>)
    ensures |r| <= |data|
    ensures forall i :: 0 <= i < |r| ==> Matches(filters, r[i])
  {
    Where(data, Matcher(filters))
  }

  /** A record is in the result exactly when it is in the input and passes every active constraint. */
  lemma FilterKeepsExactlyMatches(data: seq<Patient>, filters: FilterSpec, p: Patient)
    ensures p in FilterData(data, filters) <==> p in data && Matches(filters, p)
  {
    WhereMembership(data, Matcher(filters), p);
  }

  /** The result keeps the input's order. */
  lemma FilterPreservesOrder(data: seq<Patient>, filters: FilterSpec)
    ensures SubsequenceOf(FilterData(data, filters), data)
  {
    WhereIsSubsequence(data, Matcher(filters));
  }

  /** No age range and every other key absent, empty or 'All'. */
  predicate ImposesNothing(filters: FilterSpec)
  {
    && filters.ageRange.None?
    && !Constrains(filters.gender)
    && !Constrains(filters.bmiCategory)
    && !Constrains(filters.cholesterolLevel)
    && !Constrains(filters.smokingStatus)
    && !Constrains(filters.region)
  }

  /** An empty or all-'All' filter returns the input unchanged. */
  lemma FilterWithNoConstraint(data: seq<Patient>, filters: FilterSpec)
    requires ImposesNothing(filters)
    ensures FilterData(data, filters) == data
  {
    WhereAllKept(data, Matcher(filters));
  }

  /** Every record in the age range, no categorical constraint: nothing is dropped. */
  lemma FilterKeepsAllInRange(data: seq<Patient>, filters: FilterSpec)
    requires forall i :: 0 <= i < |data| ==> InAgeRange(filters.ageRange, data[i].age)
    requires !Constrains(filters.gender) && !Constrains(filters.bmiCategory)
    requires !Constrains(filters.cholesterolLevel) && !Constrains(filters.smokingStatus)
    requires !Constrains(filters.region)
    ensures FilterData(data, filters) == data
  {
    WhereAllKept(data, Matcher(filters));
  }

  /** Two filters applied in sequence give the same result in either order. */
  lemma FilterCommutes(data: seq<Patient>, a: FilterSpec, b: FilterSpec)
    ensures FilterData(FilterData(data, a), b) == FilterData(FilterData(data, b), a)
  {
    WhereCommutes(data, Matcher(a), Matcher(b));
  }

  /** Applying two filters in sequence keeps the records that match both. */
  lemma FilterThenFilter(data: seq<Patient>, a: FilterSpec, b: FilterSpec, p: Patient)
    ensures p in FilterData(FilterData(data, a), b) <==> p in data && Matches(a, p) && Matches(b, p)
  {
    FilterKeepsExactlyMatches(data, a, p);
    FilterKeepsExactlyMatches(FilterData(data, a), b, p);
  }

  // ---------------------------------------------------------------------------
  // Statistics.

  predicate IsDiseased(p: Patient)
  {
    p.diseaseStatus == Yes
  }

  predicate IsHealthy(p: Patient)
  {
    p.diseaseStatus == No
  }

  /** Number of records with diseaseStatus 'Yes'. */
  function CountDiseased(data: seq<Patient>): (n: nat)
    ensures n <= |data|
  {
    Count(data, IsDiseased)
  }

  /** `r` is 1000 * diseased / total (a percentage in tenths) rounded to the
      nearest integer, a half rounded up, as `toFixed(1)` does. */
  ghost predicate IsRoundedPercent(r: int, diseased: int, total: int)
  {
    total > 0 && 2 * total * r - total <= 2000 * diseased < 2 * total * r + total
  }

  /** `((diseased / total) * 100).toFixed(1)` in tenths of a percent. */
  function PrevalenceTenths(diseased: nat, total: nat): (r: int)
    requires total > 0
    ensures IsRoundedPercent(r, diseased, total)
    ensures 0 <= r
    ensures diseased <= total ==> r <= 1000
  {
    var q := (2000 * diseased + total) / (2 * total);
    DivBounds(2000 * diseased + total, 2 * total);
    assert diseased <= total ==> q <= 1000 by {
      if diseased <= total {
        MulLeftBound(total, q, 1000);
      }
    }
    q
  }

  lemma DivBounds(x: nat, y: int)
    requires y > 0
    ensures y * (x / y) <= x < y * (x / y) + y
    ensures 0 <= x / y
  {
  }

  lemma MulLeftBound(t: int, q: int, k: int)
    requires t > 0
    requires 2 * t * q <= 2 * t * k + t
    ensures q <= k
  {
    if q > k {
      assert 2 * t * q >= 2 * t * (k + 1) by {
        assert q >= k + 1;
        MulMonotone(2 * t, k + 1, q);
      }
    }
  }

  lemma MulMonotone(a: int, x: int, y: int)
    requires a >= 0 && x <= y
    ensures a * x <= a * y
  {
  }

  /** The dashboard pages' guarded form `length > 0 ? prevalence : 0`. */
  function GuardedPrevalence(diseased: nat, total: nat): (r: int)
    ensures total == 0 ==> r == 0
    ensures total > 0 ==> IsRoundedPercent(r, diseased, total)
    ensures diseased <= total ==> 0 <= r <= 1000
  {
    if total > 0 then PrevalenceTenths(diseased, total) else 0
  }

  /** `prevalence` is None where the source divides 0 by 0 and yields NaN. */
  datatype Statistics = Statistics(total: nat, diseased: nat, healthy: int, prevalence: Option<int>)

  function CalculateStatistics(data: seq<Patient>): (s: Statistics)
    ensures s.total == |data|
    ensures s.diseased == CountDiseased(data) <= s.total
    ensures s.healthy == s.total - s.diseased == Count(data, IsHealthy)
    ensures s.prevalence.None? <==> s.total == 0
    ensures s.prevalence.Some? ==> IsRoundedPercent(s.prevalence.value, s.diseased, s.total)
    ensures s.prevalence.Some? ==> 0 <= s.prevalence.value <= 1000
  {
    var total := |data|;
    var diseased := Count(data, IsDiseased);
    CountComplement(data, IsDiseased, IsHealthy);
    Statistics(
      total := total,
      diseased := diseased,
      healthy := total - diseased,
      prevalence := if total > 0 then Some(PrevalenceTenths(diseased, total)) else None)
  }

  /** Filtering never raises the total or the number of diseased records. */
  lemma FilterShrinksStatistics(data: seq<Patient>, filters: FilterSpec)
    ensures CalculateStatistics(FilterData(data, filters)).total <= CalculateStatistics(data).total
    ensures CalculateStatistics(FilterData(data, filters)).diseased <= CalculateStatistics(data).diseased
  {
    CountAfterWhere(data, Matcher(filters), IsDiseased);
  }
}
