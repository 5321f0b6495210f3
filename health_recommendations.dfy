/** The recommendation list (apps/web/src/components/HealthRecommendations.jsx):
    one item per raised risk flag in a fixed order, then a closing item for a
    Low level; and the icon colour chosen from an item's type. */
module HealthRecommendations {
  import opened Sequences
  import Anita = AnitaPage

  /** Which branch pushed an item: the six factors, then the closing Low-level item. */
  datatype Topic = AgeTopic | CholesterolTopic | BloodPressureTopic | BmiTopic | SmokingTopic | ActivityTopic
                 | LifestyleTopic
  {
    /** Position of the branch in the component. */
    function Rank(): nat
    {
      match this
      case AgeTopic => 0
      case CholesterolTopic => 1
      case BloodPressureTopic => 2
      case BmiTopic => 3
      case SmokingTopic => 4
      case ActivityTopic => 5
      case LifestyleTopic => 6
    }
  }

  datatype RecommendationType = Warning | Alert | Success
  {
    function Label(): string
    {
      match this
      case Warning => "warning"
      case Alert => "alert"
      case Success => "success"
    }
  }

  /** A pushed item: its title and type. */
  datatype Recommendation = Recommendation(topic: Topic, title: string, kind: RecommendationType)

  /** The item each branch pushes. */
  function Item(t: Topic): (r: Recommendation)
    ensures r.topic == t
    ensures r.kind == Alert <==> t == CholesterolTopic || t == BloodPressureTopic || t == SmokingTopic
    ensures r.kind == Success <==> t == LifestyleTopic
  {
    match t
    case AgeTopic => Recommendation(t, "Age-Related Monitoring", Warning)
    case CholesterolTopic => Recommendation(t, "Cholesterol Management", Alert)
    case BloodPressureTopic => Recommendation(t, "Blood Pressure Control", Alert)
    case BmiTopic => Recommendation(t, "Weight Management", Warning)
    case SmokingTopic => Recommendation(t, "Smoking Cessation", Alert)
    case ActivityTopic => Recommendation(t, "Increase Physical Activity", Warning)
    case LifestyleTopic => Recommendation(t, "Maintain Healthy Lifestyle", Success)
  }

  /** The factor branches in the order the component tests them. */
  const FactorOrder: seq<Topic> :=
    [AgeTopic, CholesterolTopic, BloodPressureTopic, BmiTopic, SmokingTopic, ActivityTopic]

  /** The flag a factor branch tests; the closing item has none. */
  function Flagged(factors: Anita.RiskFactors, t: Topic): bool
  {
    match t
    case AgeTopic => factors.age
    case CholesterolTopic => factors.cholesterol
    case BloodPressureTopic => factors.bloodPressure
    case BmiTopic => factors.bmi
    case SmokingTopic => factors.smoking
    case ActivityTopic => factors.activity
    case LifestyleTopic => false
  }

  function FlagTest(factors: Anita.RiskFactors): Topic -> bool
  {
    t => Flagged(factors, t)
  }

  /** The number of raised flags. */
  function NumFlagged(factors: Anita.RiskFactors): (n: nat)
    ensures n <= 6
  {
    (if factors.age then 1 else 0) + (if factors.cholesterol then 1 else 0)
      + (if factors.bloodPressure then 1 else 0) + (if factors.bmi then 1 else 0)
      + (if factors.smoking then 1 else 0) + (if factors.activity then 1 else 0)
  }

  function Items(ts: seq<Topic>): (r: seq<Recommendation>)
    ensures |r| == |ts|
    ensures forall i :: 0 <= i < |ts| ==> r[i] == Item(ts[i])
  {
    seq(|ts|, i requires 0 <= i < |ts| => Item(ts[i]))
  }

  /** The list the component builds: the factor branches push their items in
      order, then the closing item follows when the level is Low. */
  function Recommendations(factors: Anita.RiskFactors, level: Anita.RiskLevel): seq<Recommendation>
  {
    Pushed(factors, FactorOrder) + (if level == Anita.Low then [Item(LifestyleTopic)] else [])
  }

  function TopicsOf(recs: seq<Recommendation>): (ts: seq<Topic>)
    ensures |ts| == |recs|
    ensures forall i :: 0 <= i < |recs| ==> ts[i] == recs[i].topic
  {
    seq(|recs|, i requires 0 <= i < |recs| => recs[i].topic)
  }

  /** The items pushed by the branches for the factors `ts`, taken in order:
      each pushes its item onto the list when its flag is raised. */
  function Pushed(factors: Anita.RiskFactors, ts: seq<Topic>): seq<Recommendation>
  {
    if ts == [] then []
    else Pushed(factors, ts[..|ts| - 1])
         + (if Flagged(factors, ts[|ts| - 1]) then [Item(ts[|ts| - 1])] else [])
  }

  /** Pushing branch by branch yields the items of the flagged factors, in order. */
  lemma {:induction false} PushedIsItemsOfFlagged(factors: Anita.RiskFactors, ts: seq<Topic>)
    ensures Pushed(factors, ts) == Items(Where(ts, FlagTest(factors)))
  {
    if ts != [] {
      var init, last := ts[..|ts| - 1], ts[|ts| - 1];
      PushedIsItemsOfFlagged(factors, init);
      assert ts == init + [last];
      WhereSnoc(init, last, FlagTest(factors));
    }
  }

  /** One more branch pushes its item onto what the earlier ones pushed, if its flag is raised. */
  lemma PushStep(factors: Anita.RiskFactors, ts: seq<Topic>, t: Topic)
    ensures Pushed(factors, ts + [t]) == Pushed(factors, ts) + (if Flagged(factors, t) then [Item(t)] else [])
  {
    assert (ts + [t])[..|ts|] == ts;
  }

  /** The six factor branches, pushed one after the other. */
  lemma PushedByBranch(factors: Anita.RiskFactors)
    ensures Pushed(factors, FactorOrder)
         == [] + (if factors.age then [Item(AgeTopic)] else [])
               + (if factors.cholesterol then [Item(CholesterolTopic)] else [])
               + (if factors.bloodPressure then [Item(BloodPressureTopic)] else [])
               + (if factors.bmi then [Item(BmiTopic)] else [])
               + (if factors.smoking then [Item(SmokingTopic)] else [])
               + (if factors.activity then [Item(ActivityTopic)] else [])
  {
    var p1 := [AgeTopic];
    var p2 := p1 + [CholesterolTopic];
    var p3 := p2 + [BloodPressureTopic];
    var p4 := p3 + [BmiTopic];
    var p5 := p4 + [SmokingTopic];
    assert FactorOrder == p5 + [ActivityTopic];
    PushStep(factors, [], AgeTopic);
    assert [] + [AgeTopic] == p1;
    PushStep(factors, p1, CholesterolTopic);
    PushStep(factors, p2, BloodPressureTopic);
    PushStep(factors, p3, BmiTopic);
    PushStep(factors, p4, SmokingTopic);
    PushStep(factors, p5, ActivityTopic);
  }

  /** The component as written: a list grown by one conditional push per
      branch. */
  method BuildRecommendations(riskFactors: Anita.RiskFactors, riskLevel: Anita.RiskLevel)
    returns (recommendations: seq<Recommendation>)
    ensures recommendations == Recommendations(riskFactors, riskLevel)
  {
    recommendations := [];
    recommendations := recommendations + (if riskFactors.age then [Item(AgeTopic)] else []);
    recommendations := recommendations + (if riskFactors.cholesterol then [Item(CholesterolTopic)] else []);
    recommendations := recommendations + (if riskFactors.bloodPressure then [Item(BloodPressureTopic)] else []);
    recommendations := recommendations + (if riskFactors.bmi then [Item(BmiTopic)] else []);
    recommendations := recommendations + (if riskFactors.smoking then [Item(SmokingTopic)] else []);
    recommendations := recommendations + (if riskFactors.activity then [Item(ActivityTopic)] else []);
    PushedByBranch(riskFactors);
    if riskLevel == Anita.Low {
      recommendations := recommendations + [Item(LifestyleTopic)];
    }
  }

  /** The list holds the items of the flagged factors, in branch order, then
      the closing item when the level is Low. */
  lemma RecommendationsAreFlaggedItems(factors: Anita.RiskFactors, level: Anita.RiskLevel)
    ensures Recommendations(factors, level)
         == Items(Where(FactorOrder, FlagTest(factors))) + (if level == Anita.Low then [Item(LifestyleTopic)] else [])
  {
    PushedIsItemsOfFlagged(factors, FactorOrder);
  }

  /** One item per raised flag, plus one when the level is Low. */
  lemma RecommendationCount(factors: Anita.RiskFactors, level: Anita.RiskLevel)
    ensures |Recommendations(factors, level)| == NumFlagged(factors) + (if level == Anita.Low then 1 else 0)
  {
    PushedByBranch(factors);
  }

  /** The topics of the list: the flagged factors in branch order, then the
      closing item when the level is Low. */
  lemma TopicsOfRecommendations(factors: Anita.RiskFactors, level: Anita.RiskLevel)
    ensures TopicsOf(Recommendations(factors, level))
         == Where(FactorOrder, FlagTest(factors)) + (if level == Anita.Low then [LifestyleTopic] else [])
  {
    RecommendationsAreFlaggedItems(factors, level);
  }

  /** A factor has an item exactly when its flag is raised; the closing item is
      present exactly when the level is Low, and then it is last. */
  lemma ItemPresentIffFlagged(factors: Anita.RiskFactors, level: Anita.RiskLevel, t: Topic)
    ensures t != LifestyleTopic ==> (t in TopicsOf(Recommendations(factors, level)) <==> Flagged(factors, t))
    ensures LifestyleTopic in TopicsOf(Recommendations(factors, level)) <==> level == Anita.Low
    ensures level == Anita.Low ==> Recommendations(factors, level)[|Recommendations(factors, level)| - 1]
                                   == Item(LifestyleTopic)
  {
    RecommendationsAreFlaggedItems(factors, level);
    TopicsOfRecommendations(factors, level);
    WhereMembership(FactorOrder, FlagTest(factors), t);
    WhereMembership(FactorOrder, FlagTest(factors), LifestyleTopic);
  }

  /** Item types: cholesterol, blood pressure and smoking are alerts; age, BMI
      and activity warnings; the closing item a success. */
  lemma ItemTypes(factors: Anita.RiskFactors, level: Anita.RiskLevel, i: int)
    requires 0 <= i < |Recommendations(factors, level)|
    ensures Recommendations(factors, level)[i].kind == Alert
        <==> Recommendations(factors, level)[i].topic in {CholesterolTopic, BloodPressureTopic, SmokingTopic}
    ensures Recommendations(factors, level)[i].kind == Warning
        <==> Recommendations(factors, level)[i].topic in {AgeTopic, BmiTopic, ActivityTopic}
  {
    RecommendationsAreFlaggedItems(factors, level);
    var flagged := Where(FactorOrder, FlagTest(factors));
    if i < |flagged| {
      assert Recommendations(factors, level)[i] == Item(flagged[i]);
    }
  }

  /** Strictly increasing ranks: the branches' order, each branch at most once. */
  ghost predicate InBranchOrder(ts: seq<Topic>)
  {
    forall i, j :: 0 <= i < j < |ts| ==> ts[i].Rank() < ts[j].Rank()
  }

  lemma {:induction false} SubsequenceKeepsOrder(sub: seq<Topic>, s: seq<Topic>)
    requires SubsequenceOf(sub, s)
    requires InBranchOrder(s)
    ensures InBranchOrder(sub)
    ensures forall i :: 0 <= i < |sub| ==> sub[i] in s
    decreases |s|
  {
    if sub != [] && s != [] {
      assert InBranchOrder(s[1..]);
      if sub[0] == s[0] && SubsequenceOf(sub[1..], s[1..]) {
        SubsequenceKeepsOrder(sub[1..], s[1..]);
        forall j | 0 < j < |sub|
          ensures sub[0].Rank() < sub[j].Rank()
        {
          assert sub[j] == sub[1..][j - 1];
          var k :| 0 <= k < |s[1..]| && s[1..][k] == sub[j];
          assert s[k + 1] == sub[j];
        }
      } else {
        SubsequenceKeepsOrder(sub, s[1..]);
      }
    }
  }

  /** The factor branches come in rank order. */
  lemma FactorOrderRanked()
    ensures InBranchOrder(FactorOrder)
  {
  }

  /** Appending the closing item after factor items keeps the order strict. */
  lemma ClosingKeepsOrder(ts: seq<Topic>)
    requires InBranchOrder(ts)
    requires forall i :: 0 <= i < |ts| ==> ts[i] != LifestyleTopic
    ensures InBranchOrder(ts + [LifestyleTopic])
  {
    var us := ts + [LifestyleTopic];
    forall i, j | 0 <= i < j < |us|
      ensures us[i].Rank() < us[j].Rank()
    {
      assert us[i] == ts[i];
      if j < |ts| {
        assert us[j] == ts[j];
      }
    }
  }

  /** The items appear in the fixed branch order, each at most once, the closing item last. */
  lemma ItemsInFixedOrder(factors: Anita.RiskFactors, level: Anita.RiskLevel)
    ensures InBranchOrder(TopicsOf(Recommendations(factors, level)))
  {
    var flagged := Where(FactorOrder, FlagTest(factors));
    FactorOrderRanked();
    WhereIsSubsequence(FactorOrder, FlagTest(factors));
    SubsequenceKeepsOrder(flagged, FactorOrder);
    TopicsOfRecommendations(factors, level);
    if level == Anita.Low {
      ClosingKeepsOrder(flagged);
    }
  }

  /** The list is never empty for an assessment the score rule produces: with
      no flag raised the score is 0 and the level Low, so the "Excellent Health
      Profile" placeholder for an empty list is never shown. */
  lemma NeverEmptyForAssessedForm(form: Anita.FormData)
    ensures |Recommendations(Anita.Assessment(form).factors, Anita.Assessment(form).level)| > 0
  {
    var a := Anita.Assessment(form);
    RecommendationCount(a.factors, a.level);
    if NumFlagged(a.factors) == 0 {
      Anita.NoFlagsMeansLow(form);
    }
  }

  /** `getIconColor`: green for 'success', yellow for 'warning', red for anything else. */
  function IconColor(kind: string): (c: string)
    ensures kind == "success" ==> c == "text-green-600 bg-green-50"
    ensures kind == "warning" ==> c == "text-yellow-600 bg-yellow-50"
    ensures kind != "success" && kind != "warning" ==> c == "text-red-600 bg-red-50"
  {
    if kind == "success" then "text-green-600 bg-green-50"
    else if kind == "warning" then "text-yellow-600 bg-yellow-50"
    else "text-red-600 bg-red-50"
  }

  /** Every item gets a distinct colour per type: alerts, whose type string
      matches neither test, fall through to red. */
  lemma IconColorPerType(t: RecommendationType)
    ensures IconColor(t.Label()) == "text-red-600 bg-red-50" <==> t == Alert
    ensures IconColor(t.Label()) == "text-green-600 bg-green-50" <==> t == Success
  {
  }
}
