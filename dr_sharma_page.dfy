/** The clinical dashboard (apps/web/src/pages/DrSharmaPage.jsx): its filter
    state, and the aggregations it draws from the filtered records — rows per
    age group, diseased counts per gender, the BMI/cholesterol scatter split by
    status, and the list of high-risk groups. */
module DrSharmaPage {
  import opened Wrappers
  import opened Sequences
  import opened HeartDiseaseData

  // ---------------------------------------------------------------------------
  // Filter state.

  /** The filters the page starts with: ages 20 to 90, every category 'All',
      and no region key at all. */
  const InitialFilters: FilterSpec :=
    FilterSpec(Some((20, 90)), Some("All"), Some("All"), Some("All"), Some("All"), None)

  /** One `handleFilterChange(key, value)` call, by key. */
  datatype FilterChange =
    | SetAgeRange(range: (int, int))
    | SetGender(gender: string)
    | SetBmiCategory(bmiCategory: string)
    | SetCholesterolLevel(cholesterolLevel: string)
    | SetSmokingStatus(smokingStatus: string)
    | SetRegion(region: string)

  /** `{ ...prev, [key]: value }`: the named key takes the value, every other key is kept. */
  function HandleFilterChange(prev: FilterSpec, change: FilterChange): (next: FilterSpec)
    ensures change.SetAgeRange? ==> next == prev.(ageRange := Some(change.range))
    ensures change.SetGender? ==> next == prev.(gender := Some(change.gender))
    ensures change.SetBmiCategory? ==> next == prev.(bmiCategory := Some(change.bmiCategory))
    ensures change.SetCholesterolLevel? ==> next == prev.(cholesterolLevel := Some(change.cholesterolLevel))
    ensures change.SetSmokingStatus? ==> next == prev.(smokingStatus := Some(change.smokingStatus))
    ensures change.SetRegion? ==> next == prev.(region := Some(change.region))
  {
    match change
    case SetAgeRange(r) => prev.(ageRange := Some(r))
    case SetGender(v) => prev.(gender := Some(v))
    case SetBmiCategory(v) => prev.(bmiCategory := Some(v))
    case SetCholesterolLevel(v) => prev.(cholesterolLevel := Some(v))
    case SetSmokingStatus(v) => prev.(smokingStatus := Some(v))
    case SetRegion(v) => prev.(region := Some(v))
  }

  /** Repeating a change leaves the filters as the first call left them. */
  lemma ChangeIdempotent(prev: FilterSpec, change: FilterChange)
    ensures HandleFilterChange(HandleFilterChange(prev, change), change) == HandleFilterChange(prev, change)
  {
  }

  /** Setting a categorical key to 'All' never drops a record the filters kept. */
  lemma AllWidensSelection(data: seq<Patient>, prev: FilterSpec, change: FilterChange, p: Patient)
    requires change == SetGender("All") || change == SetBmiCategory("All") || change == SetCholesterolLevel("All")
          || change == SetSmokingStatus("All") || change == SetRegion("All")
    requires p in FilterData(data, prev)
    ensures p in FilterData(data, HandleFilterChange(prev, change))
  {
    FilterKeepsExactlyMatches(data, prev, p);
    FilterKeepsExactlyMatches(data, HandleFilterChange(prev, change), p);
  }

  /** The initial filters keep every record the generator can produce. */
  lemma InitialFiltersKeepAll(data: seq<Patient>)
    requires forall i :: 0 <= i < |data| ==> WellFormed(data[i])
    ensures FilterData(data, InitialFilters) == data
  {
    FilterKeepsAllInRange(data, InitialFilters);
  }

  // ---------------------------------------------------------------------------
  // Age-group rows.

  /** The groups in the order the chart lists them. */
  const AgeGroups: seq<AgeGroup> := [Age20To30, Age31To40, Age41To50, Age51To60, Age61To70, Age71Plus]

  function AgeGroupKey(p: Patient): AgeGroup
  {
    p.ageGroup
  }

  function InGroup(g: AgeGroup): Patient -> bool
  {
    KeyIs(AgeGroupKey, g)
  }

  /** One chart row: the group, its size, its diseased count and its prevalence
      in tenths of a percent (0 for an empty group). */
  datatype AgeGroupRow = AgeGroupRow(ageGroup: AgeGroup, total: nat, diseased: nat, prevalence: int)

  function AgeGroupRowFor(data: seq<Patient>, g: AgeGroup): (row: AgeGroupRow)
    ensures row.ageGroup == g
    ensures row.total == Count(data, InGroup(g))
    ensures row.diseased == Count(data, Both(InGroup(g), IsDiseased))
    ensures row.diseased <= row.total
    ensures row.diseased <= CountDiseased(data)
    ensures row.total == 0 ==> row.prevalence == 0
    ensures row.total > 0 ==> IsRoundedPercent(row.prevalence, row.diseased, row.total)
    ensures 0 <= row.prevalence <= 1000
  {
    var groupData := Where(data, InGroup(g));
    var diseased := Count(groupData, IsDiseased);
    CountAfterWhere(data, InGroup(g), IsDiseased);
    CountAfterWhereIsBoth(data, InGroup(g), IsDiseased);
    AgeGroupRow(g, |groupData|, diseased, GuardedPrevalence(diseased, |groupData|))
  }

  /** `ageGroupData`: one row per group, in the fixed order. */
  function AgeGroupData(data: seq<Patient>): (rows: seq<AgeGroupRow>)
    ensures |rows| == |AgeGroups|
    ensures forall i :: 0 <= i < |rows| ==> rows[i] == AgeGroupRowFor(data, AgeGroups[i])
  {
    seq(|AgeGroups|, i requires 0 <= i < |AgeGroups| => AgeGroupRowFor(data, AgeGroups[i]))
  }

  function SumTotals(rows: seq<AgeGroupRow>): nat
  {
    if rows == [] then 0 else rows[0].total + SumTotals(rows[1..])
  }

  lemma {:induction false} SumTotalsIsSumCounts(data: seq<Patient>, rows: seq<AgeGroupRow>, ks: seq<AgeGroup>)
    requires |rows| == |ks|
    requires forall i :: 0 <= i < |rows| ==> rows[i].total == Count(data, InGroup(ks[i]))
    ensures SumTotals(rows) == SumCounts(data, AgeGroupKey, ks)
  {
    if rows != [] {
      SumTotalsIsSumCounts(data, rows[1..], ks[1..]);
    }
  }

  /** The chart lists every group, each once. */
  lemma AgeGroupsListEachOnce()
    ensures Distinct(AgeGroups)
    ensures forall g: AgeGroup :: g in AgeGroups
  {
    forall g: AgeGroup
      ensures g in AgeGroups
    {
      match g
      case Age20To30 => assert AgeGroups[0] == g;
      case Age31To40 => assert AgeGroups[1] == g;
      case Age41To50 => assert AgeGroups[2] == g;
      case Age51To60 => assert AgeGroups[3] == g;
      case Age61To70 => assert AgeGroups[4] == g;
      case Age71Plus => assert AgeGroups[5] == g;
    }
  }

  /** Every record falls in exactly one group: the rows' totals add up to the
      number of filtered records. */
  lemma AgeGroupTotalsPartition(data: seq<Patient>)
    ensures SumTotals(AgeGroupData(data)) == |data|
  {
    var rows := AgeGroupData(data);
    SumTotalsIsSumCounts(data, rows, AgeGroups);
    AgeGroupsListEachOnce();
    SumCountsPartition(data, AgeGroupKey, AgeGroups);
  }

  // ---------------------------------------------------------------------------
  // Gender slices.

  datatype GenderSlice = GenderSlice(name: string, value: nat, color: string)

  predicate MaleDiseased(p: Patient)
  {
    p.gender == Male && p.diseaseStatus == Yes
  }

  predicate FemaleDiseased(p: Patient)
  {
    p.gender == Female && p.diseaseStatus == Yes
  }

  /** `genderData`: diseased men in blue, diseased women in pink. */
  function GenderData(data: seq<Patient>): (slices: seq<GenderSlice>)
    ensures |slices| == 2
    ensures slices[0].name == "Male" && slices[0].color == "#3B82F6"
    ensures slices[1].name == "Female" && slices[1].color == "#EC4899"
    ensures slices[0].value == Count(data, MaleDiseased)
    ensures slices[1].value == Count(data, FemaleDiseased)
    ensures slices[0].value <= CountDiseased(data) && slices[1].value <= CountDiseased(data)
  {
    CountMonotone(data, MaleDiseased, IsDiseased);
    CountMonotone(data, FemaleDiseased, IsDiseased);
    [GenderSlice("Male", Count(data, MaleDiseased), "#3B82F6"),
     GenderSlice("Female", Count(data, FemaleDiseased), "#EC4899")]
  }

  /** The two slices together are exactly the diseased records. */
  lemma GenderSlicesCoverDiseased(data: seq<Patient>)
    ensures GenderData(data)[0].value + GenderData(data)[1].value == CountDiseased(data)
  {
    CountDisjointUnion(data, IsDiseased, MaleDiseased, FemaleDiseased);
  }

  // ---------------------------------------------------------------------------
  // Scatter points.

  datatype ScatterPoint = ScatterPoint(bmi: int, cholesterol: int, diseaseStatus: DiseaseStatus)

  function PointOf(p: Patient): (pt: ScatterPoint)
    ensures pt.bmi == p.bmi && pt.cholesterol == p.cholesterol && pt.diseaseStatus == p.diseaseStatus
  {
    ScatterPoint(p.bmi, p.cholesterol, p.diseaseStatus)
  }

  /** `scatterData`: one point per filtered record, in the same order. */
  function ScatterData(data: seq<Patient>): (points: seq<ScatterPoint>)
    ensures |points| == |data|
    ensures forall i :: 0 <= i < |data| ==> points[i] == PointOf(data[i])
  {
    seq(|data|, i requires 0 <= i < |data| => PointOf(data[i]))
  }

  predicate PointDiseased(pt: ScatterPoint)
  {
    pt.diseaseStatus == Yes
  }

  predicate PointHealthy(pt: ScatterPoint)
  {
    pt.diseaseStatus == No
  }

  /** The 'Yes' series has one point per diseased record. */
  lemma {:induction false} DiseasedSeriesSize(data: seq<Patient>)
    ensures Count(ScatterData(data), PointDiseased) == CountDiseased(data)
  {
    if data != [] {
      DiseasedSeriesSize(data[1..]);
      assert ScatterData(data)[1..] == ScatterData(data[1..]);
      WhereCons(ScatterData(data), PointDiseased);
      WhereCons(data, IsDiseased);
    }
  }

  /** The 'Yes' and 'No' series together hold every point once. */
  lemma SeriesPartitionPoints(data: seq<Patient>)
    ensures Count(ScatterData(data), PointDiseased) + Count(ScatterData(data), PointHealthy) == |data|
  {
    CountComplement(ScatterData(data), PointDiseased, PointHealthy);
  }

  // ---------------------------------------------------------------------------
  // High-risk groups.

  /** The three combinations the page looks for, in the order it tests them. */
  datatype RiskGroupKind = ElderlyHighCholesterol | SmokersWithObesity | HighBpSedentary
  {
    function Label(): string
    {
      match this
      case ElderlyHighCholesterol => "Elderly (>65) with High Cholesterol"
      case SmokersWithObesity => "Current Smokers with Obesity"
      case HighBpSedentary => "High BP with Sedentary Lifestyle"
    }

    function Rank(): nat
    {
      match this
      case ElderlyHighCholesterol => 0
      case SmokersWithObesity => 1
      case HighBpSedentary => 2
    }

    /** Whether a record belongs to the group: the combination, and diseased. */
    predicate Applies(p: Patient)
    {
      match this
      case ElderlyHighCholesterol => p.age > 65 && p.cholesterol > 240 && p.diseaseStatus == Yes
      case SmokersWithObesity => p.smokingStatus == Current && p.bmiCategory == Obese && p.diseaseStatus == Yes
      case HighBpSedentary => p.systolic > 140 && p.physicalActivity == Sedentary && p.diseaseStatus == Yes
    }
  }

  function Selector(k: RiskGroupKind): Patient -> bool
  {
    (p: Patient) => k.Applies(p)
  }

  /** One listed group: its kind (whose label is the title) and its count. */
  datatype RiskGroup = RiskGroup(kind: RiskGroupKind, count: nat)

  const RiskGroupKinds: seq<RiskGroupKind> := [ElderlyHighCholesterol, SmokersWithObesity, HighBpSedentary]

  function Candidate(data: seq<Patient>, k: RiskGroupKind): RiskGroup
  {
    RiskGroup(k, Count(data, Selector(k)))
  }

  predicate HasMembers(g: RiskGroup)
  {
    g.count > 0
  }

  /** The groups the page lists: each candidate, in order, that has members. */
  function HighRiskGroupsOf(data: seq<Patient>): seq<RiskGroup>
  {
    Where([Candidate(data, ElderlyHighCholesterol), Candidate(data, SmokersWithObesity),
           Candidate(data, HighBpSedentary)], HasMembers)
  }

  /** `highRiskGroups` as written: count each combination, push it when non-zero. */
  method HighRiskGroups(filteredData: seq<Patient>) returns (groups: seq<RiskGroup>)
    ensures groups == HighRiskGroupsOf(filteredData)
  {
    groups := [];
    var elderlyHighChol := |Where(filteredData, Selector(ElderlyHighCholesterol))|;
    if elderlyHighChol > 0 {
      groups := groups + [RiskGroup(ElderlyHighCholesterol, elderlyHighChol)];
    }
    var smokersObese := |Where(filteredData, Selector(SmokersWithObesity))|;
    if smokersObese > 0 {
      groups := groups + [RiskGroup(SmokersWithObesity, smokersObese)];
    }
    var highBpSedentary := |Where(filteredData, Selector(HighBpSedentary))|;
    if highBpSedentary > 0 {
      groups := groups + [RiskGroup(HighBpSedentary, highBpSedentary)];
    }
    ghost var cs := [Candidate(filteredData, ElderlyHighCholesterol), Candidate(filteredData, SmokersWithObesity),
                     Candidate(filteredData, HighBpSedentary)];
    WhereCons(cs, HasMembers);
    WhereCons(cs[1..], HasMembers);
    WhereCons(cs[2..], HasMembers);
  }

  /** A kind is listed exactly when some filtered record belongs to it, and then
      with that number of records. */
  lemma ListedIffMembers(data: seq<Patient>, k: RiskGroupKind)
    ensures (exists g :: g in HighRiskGroupsOf(data) && g.kind == k) <==> Count(data, Selector(k)) > 0
    ensures forall g :: g in HighRiskGroupsOf(data) ==> g.count == Count(data, Selector(g.kind)) > 0
  {
    var cs := [Candidate(data, ElderlyHighCholesterol), Candidate(data, SmokersWithObesity),
               Candidate(data, HighBpSedentary)];
    forall g
      ensures g in HighRiskGroupsOf(data) <==> g in cs && HasMembers(g)
    {
      WhereMembership(cs, HasMembers, g);
    }
    if Count(data, Selector(k)) > 0 {
      assert Candidate(data, k) in cs;
      assert Candidate(data, k) in HighRiskGroupsOf(data);
    }
  }

  /** At most three groups, in the order the page tests them, each at most once,
      and no group counts more records than are diseased. */
  lemma HighRiskGroupsShape(data: seq<Patient>)
    ensures |HighRiskGroupsOf(data)| <= 3
    ensures forall i, j :: 0 <= i < j < |HighRiskGroupsOf(data)| ==>
              HighRiskGroupsOf(data)[i].kind.Rank() < HighRiskGroupsOf(data)[j].kind.Rank()
    ensures forall i :: 0 <= i < |HighRiskGroupsOf(data)| ==> HighRiskGroupsOf(data)[i].count <= CountDiseased(data)
  {
    var cs := [Candidate(data, ElderlyHighCholesterol), Candidate(data, SmokersWithObesity),
               Candidate(data, HighBpSedentary)];
    WhereCons(cs, HasMembers);
    WhereCons(cs[1..], HasMembers);
    WhereCons(cs[2..], HasMembers);
    CountMonotone(data, Selector(ElderlyHighCholesterol), IsDiseased);
    CountMonotone(data, Selector(SmokersWithObesity), IsDiseased);
    CountMonotone(data, Selector(HighBpSedentary), IsDiseased);
  }
}
