/** The public-health dashboard (apps/web/src/pages/RameshPage.jsx): rural and
    urban rows, one row per activity level, and the two regional summaries, all
    computed over the whole generated population. */
module RameshPage {
  import opened Wrappers
  import opened Sequences
  import opened HeartDiseaseData

  function RegionKey(p: Patient): Region
  {
    p.region
  }

  function InRegion(r: Region): Patient -> bool
  {
    KeyIs(RegionKey, r)
  }

  lemma InRegionHolds(r: Region, p: Patient)
    ensures InRegion(r)(p) <==> p.region == r
  {
    assert InRegion(r) == KeyIs(RegionKey, r);
    assert KeyIs(RegionKey, r)(p) == (RegionKey(p) == r);
  }

  /** Total, diseased count and prevalence of one region. The prevalence divides
      without a guard: it is None, standing for NaN, when the region is empty. */
  datatype RegionStats = RegionStats(total: nat, diseased: nat, prevalence: Option<int>)

  /** `ruralStats` / `urbanStats`: the region's records and how many are diseased. */
  function RegionStatsFor(population: seq<Patient>, r: Region): (s: RegionStats)
    ensures s.total == Count(population, InRegion(r))
    ensures s.diseased == Count(population, Both(InRegion(r), IsDiseased))
    ensures s.diseased <= s.total
    ensures s.diseased <= CountDiseased(population)
    ensures s.prevalence.None? <==> s.total == 0
    ensures s.prevalence.Some? ==> IsRoundedPercent(s.prevalence.value, s.diseased, s.total)
    ensures s.prevalence.Some? ==> 0 <= s.prevalence.value <= 1000
  {
    var members := Where(population, InRegion(r));
    var diseased := Count(members, IsDiseased);
    CountAfterWhere(population, InRegion(r), IsDiseased);
    CountAfterWhereIsBoth(population, InRegion(r), IsDiseased);
    RegionStats(|members|, diseased,
                if |members| > 0 then Some(PrevalenceTenths(diseased, |members|)) else None)
  }

  function RuralStats(population: seq<Patient>): RegionStats
  {
    RegionStatsFor(population, Rural)
  }

  function UrbanStats(population: seq<Patient>): RegionStats
  {
    RegionStatsFor(population, Urban)
  }

  /** One `regionalData` row: the region's name and its summary. */
  datatype RegionRow = RegionRow(region: Region, total: nat, diseased: nat, prevalence: Option<int>)

  /** `regionalData`: the Rural row, then the Urban row. */
  function RegionalData(population: seq<Patient>): (rows: seq<RegionRow>)
    ensures |rows| == 2
    ensures rows[0].region == Rural && rows[1].region == Urban
    ensures forall i :: 0 <= i < 2 ==> rows[i].diseased <= rows[i].total
  {
    var rural := RegionStatsFor(population, Rural);
    var urban := RegionStatsFor(population, Urban);
    [RegionRow(Rural, rural.total, rural.diseased, rural.prevalence),
     RegionRow(Urban, urban.total, urban.diseased, urban.prevalence)]
  }

  /** Every record is rural or urban: the two totals add up to the population. */
  lemma RegionsPartitionPopulation(population: seq<Patient>)
    ensures RegionalData(population)[0].total + RegionalData(population)[1].total == |population|
  {
    forall i | 0 <= i < |population|
      ensures InRegion(Rural)(population[i]) != InRegion(Urban)(population[i])
    {
      InRegionHolds(Rural, population[i]);
      InRegionHolds(Urban, population[i]);
    }
    CountComplement(population, InRegion(Rural), InRegion(Urban));
  }

  /** The summary cards show the same numbers as the chart rows. */
  lemma SummariesMatchRows(population: seq<Patient>)
    ensures RuralStats(population)
         == RegionStats(RegionalData(population)[0].total, RegionalData(population)[0].diseased,
                        RegionalData(population)[0].prevalence)
    ensures UrbanStats(population)
         == RegionStats(RegionalData(population)[1].total, RegionalData(population)[1].diseased,
                        RegionalData(population)[1].prevalence)
  {
  }

  /** A region's prevalence is defined exactly when the region has records. */
  lemma RegionalPrevalenceDefinedIffNonEmpty(population: seq<Patient>, i: int)
    requires 0 <= i < 2
    ensures RegionalData(population)[i].prevalence.Some? <==> RegionalData(population)[i].total > 0
  {
  }

  // ---------------------------------------------------------------------------
  // Activity rows.

  /** The levels in the order the chart lists them. */
  const ActivityLevels: seq<PhysicalActivity> := [Sedentary, Light, Moderate, Active]

  function ActivityKey(p: Patient): PhysicalActivity
  {
    p.physicalActivity
  }

  function AtLevel(a: PhysicalActivity): Patient -> bool
  {
    KeyIs(ActivityKey, a)
  }

  /** One `lifestyleData` row; the prevalence is guarded and 0 for an empty level. */
  datatype ActivityRow = ActivityRow(activity: PhysicalActivity, total: nat, diseased: nat, prevalence: int)

  function ActivityRowFor(population: seq<Patient>, a: PhysicalActivity): (row: ActivityRow)
    ensures row.activity == a
    ensures row.total == Count(population, AtLevel(a))
    ensures row.diseased == Count(population, Both(AtLevel(a), IsDiseased))
    ensures row.diseased <= row.total
    ensures row.total == 0 ==> row.prevalence == 0
    ensures row.total > 0 ==> IsRoundedPercent(row.prevalence, row.diseased, row.total)
    ensures 0 <= row.prevalence <= 1000
  {
    var group := Where(population, AtLevel(a));
    var diseased := Count(group, IsDiseased);
    CountAfterWhereIsBoth(population, AtLevel(a), IsDiseased);
    ActivityRow(a, |group|, diseased, GuardedPrevalence(diseased, |group|))
  }

  /** `lifestyleData`: one row per level, in the fixed order. */
  function LifestyleData(population: seq<Patient>): (rows: seq<ActivityRow>)
    ensures |rows| == |ActivityLevels|
    ensures forall i :: 0 <= i < |rows| ==> rows[i] == ActivityRowFor(population, ActivityLevels[i])
  {
    seq(|ActivityLevels|, i requires 0 <= i < |ActivityLevels| => ActivityRowFor(population, ActivityLevels[i]))
  }

  function SumActivityTotals(rows: seq<ActivityRow>): nat
  {
    if rows == [] then 0 else rows[0].total + SumActivityTotals(rows[1..])
  }

  lemma {:induction false} SumActivityTotalsIsSumCounts(population: seq<Patient>, rows: seq<ActivityRow>,
                                                        ks: seq<PhysicalActivity>)
    requires |rows| == |ks|
    requires forall i :: 0 <= i < |rows| ==> rows[i].total == Count(population, AtLevel(ks[i]))
    ensures SumActivityTotals(rows) == SumCounts(population, ActivityKey, ks)
  {
    if rows != [] {
      SumActivityTotalsIsSumCounts(population, rows[1..], ks[1..]);
    }
  }

  /** The chart lists every activity level, each once. */
  lemma ActivityLevelsListEachOnce()
    ensures Distinct(ActivityLevels)
    ensures forall a: PhysicalActivity :: a in ActivityLevels
  {
    forall a: PhysicalActivity
      ensures a in ActivityLevels
    {
      match a
      case Sedentary => assert ActivityLevels[0] == a;
      case Light => assert ActivityLevels[1] == a;
      case Moderate => assert ActivityLevels[2] == a;
      case Active => assert ActivityLevels[3] == a;
    }
  }

  /** Every record has exactly one activity level: the rows' totals add up to
      the population. */
  lemma ActivityTotalsPartition(population: seq<Patient>)
    ensures SumActivityTotals(LifestyleData(population)) == |population|
  {
    SumActivityTotalsIsSumCounts(population, LifestyleData(population), ActivityLevels);
    ActivityLevelsListEachOnce();
    SumCountsPartition(population, ActivityKey, ActivityLevels);
  }
}
