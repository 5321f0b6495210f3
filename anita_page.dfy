/** The personal risk-assessment page (apps/web/src/pages/AnitaPage.jsx): the
    form state and its update, the integer risk score with its level and
    per-factor flags, and the comparison with healthy benchmarks.
    BMI is in tenths, as everywhere in this model. */
module AnitaPage {
  import opened HeartDiseaseData

  /** The form state. `bmi` is in tenths. */
  datatype FormData = FormData(
    age: int,
    cholesterol: int,
    systolic: int,
    diastolic: int,
    bmi: int,
    physicalActivity: PhysicalActivity,
    smokingStatus: SmokingStatus)

  /** The state the page starts with. */
  const InitialForm: FormData := FormData(45, 200, 120, 80, 250, Moderate, Never)

  /** The arguments of `handleInputChange(field, value)`: which field, and its new value. */
  datatype FormChange =
    | SetAge(age: int)
    | SetCholesterol(cholesterol: int)
    | SetSystolic(systolic: int)
    | SetDiastolic(diastolic: int)
    | SetBmi(bmi: int)
    | SetPhysicalActivity(physicalActivity: PhysicalActivity)
    | SetSmokingStatus(smokingStatus: SmokingStatus)

  /** `setFormData(prev => ({ ...prev, [field]: value }))`: the named field
      takes the new value and every other field keeps its value. */
  function HandleInputChange(form: FormData, change: FormChange): (r: FormData)
    ensures r.age == (if change.SetAge? then change.age else form.age)
    ensures r.cholesterol == (if change.SetCholesterol? then change.cholesterol else form.cholesterol)
    ensures r.systolic == (if change.SetSystolic? then change.systolic else form.systolic)
    ensures r.diastolic == (if change.SetDiastolic? then change.diastolic else form.diastolic)
    ensures r.bmi == (if change.SetBmi? then change.bmi else form.bmi)
    ensures r.physicalActivity
         == (if change.SetPhysicalActivity? then change.physicalActivity else form.physicalActivity)
    ensures r.smokingStatus == (if change.SetSmokingStatus? then change.smokingStatus else form.smokingStatus)
  {
    match change
    case SetAge(v) => form.(age := v)
    case SetCholesterol(v) => form.(cholesterol := v)
    case SetSystolic(v) => form.(systolic := v)
    case SetDiastolic(v) => form.(diastolic := v)
    case SetBmi(v) => form.(bmi := v)
    case SetPhysicalActivity(v) => form.(physicalActivity := v)
    case SetSmokingStatus(v) => form.(smokingStatus := v)
  }

  // ---------------------------------------------------------------------------
  // The six band contributions to the score.

  function AgePoints(age: int): (n: int)
    ensures n == 2 <==> age > 65
    ensures n == 1 <==> 50 < age <= 65
    ensures n == 0 <==> age <= 50
  {
    if age > 65 then 2 else if age > 50 then 1 else 0
  }

  function CholesterolPoints(cholesterol: int): (n: int)
    ensures n == 2 <==> cholesterol > 240
    ensures n == 1 <==> 200 < cholesterol <= 240
    ensures n == 0 <==> cholesterol <= 200
  {
    if cholesterol > 240 then 2 else if cholesterol > 200 then 1 else 0
  }

  function BloodPressurePoints(systolic: int, diastolic: int): (n: int)
    ensures n == 2 <==> systolic > 140 || diastolic > 90
    ensures n == 1 <==> !(systolic > 140 || diastolic > 90) && (systolic > 130 || diastolic > 85)
    ensures n == 0 <==> systolic <= 130 && diastolic <= 85
  {
    if systolic > 140 || diastolic > 90 then 2 else if systolic > 130 || diastolic > 85 then 1 else 0
  }

  /** `bmi` in tenths: the thresholds are 30 and 25. */
  function BmiPoints(bmi: int): (n: int)
    ensures n == 2 <==> bmi > 300
    ensures n == 1 <==> 250 < bmi <= 300
    ensures n == 0 <==> bmi <= 250
  {
    if bmi > 300 then 2 else if bmi > 250 then 1 else 0
  }

  function SmokingPoints(smoking: SmokingStatus): (n: int)
    ensures n == 3 <==> smoking == Current
    ensures n == 1 <==> smoking == Former
    ensures n == 0 <==> smoking == Never
  {
    match smoking
    case Current => 3
    case Former => 1
    case Never => 0
  }

  function ActivityPoints(activity: PhysicalActivity): (n: int)
    ensures n == 2 <==> activity == Sedentary
    ensures n == 1 <==> activity == Light
    ensures n == 0 <==> activity == Moderate || activity == Active
  {
    match activity
    case Sedentary => 2
    case Light => 1
    case Moderate => 0
    case Active => 0
  }

  /** The score: the six contributions added together; at most 2+2+2+2+3+2. */
  function RiskScore(form: FormData): (score: int)
    ensures 0 <= score <= 13
  {
    AgePoints(form.age) + CholesterolPoints(form.cholesterol)
      + BloodPressurePoints(form.systolic, form.diastolic) + BmiPoints(form.bmi)
      + SmokingPoints(form.smokingStatus) + ActivityPoints(form.physicalActivity)
  }

  datatype RiskLevel = Low | Medium | High
  {
    function Label(): string
    {
      match this
      case Low => "Low"
      case Medium => "Medium"
      case High => "High"
    }
  }

  function LevelFor(score: int): (level: RiskLevel)
    ensures level == RiskLevel.High <==> score >= 8
    ensures level == Medium <==> 4 <= score < 8
    ensures level == Low <==> score < 4
  {
    if score >= 8 then RiskLevel.High else if score >= 4 then Medium else Low
  }

  /** One flag per factor, set when that factor added to the score. */
  datatype RiskFactors = RiskFactors(
    age: bool,
    cholesterol: bool,
    bloodPressure: bool,
    bmi: bool,
    smoking: bool,
    activity: bool)

  /** The flags in terms of the form's own values. */
  function FactorsOf(form: FormData): (f: RiskFactors)
    ensures f.age <==> form.age > 50
    ensures f.cholesterol <==> form.cholesterol > 200
    ensures f.bloodPressure <==> form.systolic > 130 || form.diastolic > 85
    ensures f.bmi <==> form.bmi > 250
    ensures f.smoking <==> form.smokingStatus != Never
    ensures f.activity <==> form.physicalActivity == Sedentary || form.physicalActivity == Light
  {
    RiskFactors(
      age := AgePoints(form.age) > 0,
      cholesterol := CholesterolPoints(form.cholesterol) > 0,
      bloodPressure := BloodPressurePoints(form.systolic, form.diastolic) > 0,
      bmi := BmiPoints(form.bmi) > 0,
      smoking := SmokingPoints(form.smokingStatus) > 0,
      activity := ActivityPoints(form.physicalActivity) > 0)
  }

  datatype RiskAssessment = RiskAssessment(score: int, level: RiskLevel, factors: RiskFactors)

  /** What `riskAssessment` evaluates to for a form. */
  function Assessment(form: FormData): RiskAssessment
  {
    var score := RiskScore(form);
    RiskAssessment(score, LevelFor(score), FactorsOf(form))
  }

  /** The memoised `riskAssessment` as written: a running score and flags set
      factor by factor, then the level from the final score. */
  method AssessRisk(form: FormData) returns (a: RiskAssessment)
    ensures a == Assessment(form)
  {
    var score, factors := TallyFactors(form);

    var level := Low;
    if score >= 8 {
      level := RiskLevel.High;
    } else if score >= 4 {
      level := Medium;
    }

    a := RiskAssessment(score, level, factors);
  }

  /** The first part of `riskAssessment`: the running score and the flags,
      factor by factor. */
  method TallyFactors(form: FormData) returns (score: int, factors: RiskFactors)
    ensures score == RiskScore(form)
    ensures factors == FactorsOf(form)
  {
    score := 0;
    var ageRisk, cholesterolRisk, bloodPressureRisk, bmiRisk, smokingRisk, activityRisk := false, false, false, false, false, false;

    if form.age > 65 {
      score := score + 2;
      ageRisk := true;
    } else if form.age > 50 {
      score := score + 1;
      ageRisk := true;
    }
    ghost var f := FactorsOf(form);
    assert score == AgePoints(form.age);
    assert ageRisk == f.age;

    if form.cholesterol > 240 {
      score := score + 2;
      cholesterolRisk := true;
    } else if form.cholesterol > 200 {
      score := score + 1;
      cholesterolRisk := true;
    }
    ghost var sofar := AgePoints(form.age) + CholesterolPoints(form.cholesterol);
    assert score == sofar;
    assert cholesterolRisk == f.cholesterol;

    if form.systolic > 140 || form.diastolic > 90 {
      score := score + 2;
      bloodPressureRisk := true;
    } else if form.systolic > 130 || form.diastolic > 85 {
      score := score + 1;
      bloodPressureRisk := true;
    }
    sofar := sofar + BloodPressurePoints(form.systolic, form.diastolic);
    assert score == sofar;
    assert bloodPressureRisk == f.bloodPressure;

    if form.bmi > 300 {
      score := score + 2;
      bmiRisk := true;
    } else if form.bmi > 250 {
      score := score + 1;
      bmiRisk := true;
    }
    sofar := sofar + BmiPoints(form.bmi);
    assert score == sofar;
    assert bmiRisk == f.bmi;

    if form.smokingStatus == Current {
      score := score + 3;
      smokingRisk := true;
    } else if form.smokingStatus == Former {
      score := score + 1;
      smokingRisk := true;
    }
    sofar := sofar + SmokingPoints(form.smokingStatus);
    assert score == sofar;
    assert smokingRisk == f.smoking;

    if form.physicalActivity == Sedentary {
      score := score + 2;
      activityRisk := true;
    } else if form.physicalActivity == Light {
      score := score + 1;
      activityRisk := true;
    }
    sofar := sofar + ActivityPoints(form.physicalActivity);
    assert score == sofar == RiskScore(form);
    factors := RiskFactors(ageRisk, cholesterolRisk, bloodPressureRisk, bmiRisk, smokingRisk, activityRisk);
  }

  /** A flag is set exactly when its factor contributed a positive amount to the score. */
  lemma FlagsMatchContributions(form: FormData)
    ensures Assessment(form).factors.age <==> AgePoints(form.age) > 0
    ensures Assessment(form).factors.cholesterol <==> CholesterolPoints(form.cholesterol) > 0
    ensures Assessment(form).factors.bloodPressure <==> BloodPressurePoints(form.systolic, form.diastolic) > 0
    ensures Assessment(form).factors.bmi <==> BmiPoints(form.bmi) > 0
    ensures Assessment(form).factors.smoking <==> SmokingPoints(form.smokingStatus) > 0
    ensures Assessment(form).factors.activity <==> ActivityPoints(form.physicalActivity) > 0
  {
  }

  /** With no flag set the score is 0 and the level Low. */
  lemma NoFlagsMeansLow(form: FormData)
    requires Assessment(form).factors == RiskFactors(false, false, false, false, false, false)
    ensures Assessment(form).score == 0
    ensures Assessment(form).level == Low
  {
  }

  /** Raising age, cholesterol, BMI, systolic or diastolic never lowers the score. */
  lemma RiskScoreMonotone(f1: FormData, f2: FormData)
    requires f1.age <= f2.age && f1.cholesterol <= f2.cholesterol && f1.bmi <= f2.bmi
    requires f1.systolic <= f2.systolic && f1.diastolic <= f2.diastolic
    requires f1.smokingStatus == f2.smokingStatus && f1.physicalActivity == f2.physicalActivity
    ensures RiskScore(f1) <= RiskScore(f2)
    ensures LevelFor(RiskScore(f1)) == RiskLevel.High ==> LevelFor(RiskScore(f2)) == RiskLevel.High
  {
  }

  // ---------------------------------------------------------------------------
  // Healthy benchmarks.

  datatype BenchmarkStatus = Info | Good | Warning

  datatype Benchmark = Benchmark(metric: string, benchmark: string, status: BenchmarkStatus)

  function CholesterolStatus(cholesterol: int): (s: BenchmarkStatus)
    ensures s == Good <==> cholesterol < 200
    ensures s == Warning <==> cholesterol >= 200
  {
    if cholesterol < 200 then Good else Warning
  }

  function BloodPressureStatus(systolic: int, diastolic: int): (s: BenchmarkStatus)
    ensures s == Good <==> systolic < 120 && diastolic < 80
    ensures s == Warning <==> systolic >= 120 || diastolic >= 80
  {
    if systolic < 120 && diastolic < 80 then Good else Warning
  }

  /** `bmi` in tenths: good from 18.5 to 24.9 inclusive. */
  function BmiStatus(bmi: int): (s: BenchmarkStatus)
    ensures s == Good <==> 185 <= bmi <= 249
    ensures s == Warning <==> bmi < 185 || bmi > 249
  {
    if bmi >= 185 && bmi <= 249 then Good else Warning
  }

  /** The four benchmark rows, in display order. */
  function HealthyBenchmarks(form: FormData): (rows: seq<Benchmark>)
    ensures |rows| == 4
    ensures rows[0].metric == "Age" && rows[0].status == Info
    ensures rows[1].metric == "Cholesterol" && (rows[1].status == Good <==> form.cholesterol < 200)
    ensures rows[2].metric == "Blood Pressure"
      && (rows[2].status == Good <==> form.systolic < 120 && form.diastolic < 80)
    ensures rows[3].metric == "BMI" && (rows[3].status == Good <==> 185 <= form.bmi <= 249)
    ensures forall i :: 1 <= i < 4 ==> rows[i].status != Info
  {
    [
      Benchmark("Age", "N/A", Info),
      Benchmark("Cholesterol", "<200 mg/dL", CholesterolStatus(form.cholesterol)),
      Benchmark("Blood Pressure", "<120/80 mmHg", BloodPressureStatus(form.systolic, form.diastolic)),
      Benchmark("BMI", "18.5-24.9", BmiStatus(form.bmi))
    ]
  }

  /** A benchmark shown as good means its factor adds nothing to the score and raises no flag. */
  lemma GoodBenchmarkScoresNothing(form: FormData)
    ensures HealthyBenchmarks(form)[1].status == Good ==> CholesterolPoints(form.cholesterol) == 0
    ensures HealthyBenchmarks(form)[2].status == Good ==> BloodPressurePoints(form.systolic, form.diastolic) == 0
    ensures HealthyBenchmarks(form)[3].status == Good ==> BmiPoints(form.bmi) == 0
    ensures HealthyBenchmarks(form)[1].status == Good ==> !Assessment(form).factors.cholesterol
    ensures HealthyBenchmarks(form)[2].status == Good ==> !Assessment(form).factors.bloodPressure
    ensures HealthyBenchmarks(form)[3].status == Good ==> !Assessment(form).factors.bmi
  {
  }

  /** The form the page opens with sits exactly on the cholesterol, blood-pressure
      and BMI thresholds: it scores 0 with no flag and level Low, yet none of
      those three benchmarks shows as good. */
  lemma InitialFormOnThresholds()
    ensures Assessment(InitialForm) == RiskAssessment(0, Low, RiskFactors(false, false, false, false, false, false))
    ensures HealthyBenchmarks(InitialForm)[1].status == Warning
    ensures HealthyBenchmarks(InitialForm)[2].status == Warning
    ensures HealthyBenchmarks(InitialForm)[3].status == Warning
  {
  }
}
