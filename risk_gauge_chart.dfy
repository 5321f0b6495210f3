/** The risk gauge (apps/web/src/components/RiskGaugeChart.jsx): the score
    drawn on a 0-100 dial and the colours picked from the level text. */
module RiskGaugeChart {
  import Anita = AnitaPage

  /** The highest score the dial is labelled with ("score/15"). */
  const DialMaximum: int := 15

  /** `Math.min(100, (riskScore / 15) * 100)`, in exact arithmetic. */
  function NormalizedScore(riskScore: int): (v: real)
    ensures v <= 100.0
    ensures riskScore >= 0 ==> v >= 0.0
    ensures v == 100.0 || v == (riskScore as real) * 100.0 / (DialMaximum as real)
  {
    var scaled := (riskScore as real) / (DialMaximum as real) * 100.0;
    if scaled < 100.0 then scaled else 100.0
  }

  /** The cap is reached exactly at the dial's maximum score. */
  lemma NormalizedScoreCapped(riskScore: int)
    ensures NormalizedScore(riskScore) == 100.0 <==> riskScore >= DialMaximum
  {
  }

  /** A higher score never shows as a lower reading. */
  lemma NormalizedScoreMonotone(s: int, t: int)
    requires s <= t
    ensures NormalizedScore(s) <= NormalizedScore(t)
  {
    assert (s as real) / 15.0 * 100.0 <= (t as real) / 15.0 * 100.0;
  }

  /** For any form, the score the assessment produces stays below the cap, so
      the reading is the score's exact share of 15. */
  lemma AssessedScoreNeverCapped(form: Anita.FormData)
    ensures NormalizedScore(Anita.RiskScore(form)) < 100.0
    ensures NormalizedScore(Anita.RiskScore(form)) == (Anita.RiskScore(form) as real) * 100.0 / 15.0
  {
    NormalizedScoreCapped(Anita.RiskScore(form));
  }

  /** The bar's fill: green for "Low", amber for "Medium", red otherwise. */
  function FillColor(riskLevel: string): (c: string)
    ensures riskLevel == "Low" ==> c == "#10B981"
    ensures riskLevel == "Medium" ==> c == "#F59E0B"
    ensures riskLevel != "Low" && riskLevel != "Medium" ==> c == "#EF4444"
  {
    if riskLevel == "Low" then "#10B981" else if riskLevel == "Medium" then "#F59E0B" else "#EF4444"
  }

  /** `getRiskColor`: the level text's colour class. */
  function RiskColor(riskLevel: string): (c: string)
    ensures riskLevel == "Low" ==> c == "text-green-600"
    ensures riskLevel == "Medium" ==> c == "text-yellow-600"
    ensures riskLevel != "Low" && riskLevel != "Medium" ==> c == "text-red-600"
  {
    if riskLevel == "Low" then "text-green-600"
    else if riskLevel == "Medium" then "text-yellow-600"
    else "text-red-600"
  }

  /** The fill and the text colour split the levels the same way: two level
      texts share a fill exactly when they share a text colour. */
  lemma ColoursAgree(l1: string, l2: string)
    ensures FillColor(l1) == FillColor(l2) <==> RiskColor(l1) == RiskColor(l2)
  {
  }

  /** Each of the three assessed levels gets its own fill. */
  lemma LevelsGetDistinctFills(a: Anita.RiskLevel, b: Anita.RiskLevel)
    ensures FillColor(a.Label()) == FillColor(b.Label()) <==> a == b
  {
  }
}
