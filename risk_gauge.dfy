/** The risk gauge: the risk level of a score, the text and background
    classes derived from it, and the needle's rotation. */
module RiskGauge {
  import opened Thresholds
  import opened Zones

  /** `{ level, color }` */
  datatype RiskLevel = RiskLevel(level: string, color: string)

  /** Level thresholds, highest first, and the level of each branch. */
  const RISK_THRESHOLDS: seq<real> := [80.0, 60.0, 40.0, 20.0]
  const RISK_LEVELS: seq<RiskLevel> := [
    RiskLevel("EXTREME", "red"),
    RiskLevel("HIGH", "orange"),
    RiskLevel("MODERATE", "yellow"),
    RiskLevel("LOW", "green"),
    RiskLevel("MINIMAL", "blue")
  ]

  /** The fixed overall score the gauge displays. */
  const RISK_SCORE: real := 68.0

  /** `getRiskLevel`: the branch taken is the first threshold the score
      reaches. */
  function GetRiskLevel(score: real): (r: RiskLevel)
    ensures r == RISK_LEVELS[FirstMet(RISK_THRESHOLDS, score)]
  {
    FirstMetFour(80.0, 60.0, 40.0, 20.0, score);
    if score >= 80.0 then RiskLevel("EXTREME", "red")
    else if score >= 60.0 then RiskLevel("HIGH", "orange")
    else if score >= 40.0 then RiskLevel("MODERATE", "yellow")
    else if score >= 20.0 then RiskLevel("LOW", "green")
    else RiskLevel("MINIMAL", "blue")
  }

  /** Each level holds exactly on its band; lower bounds are inclusive. */
  lemma GetRiskLevelBands(score: real)
    ensures GetRiskLevel(score).level == "EXTREME" <==> score >= 80.0
    ensures GetRiskLevel(score).level == "HIGH" <==> 60.0 <= score < 80.0
    ensures GetRiskLevel(score).level == "MODERATE" <==> 40.0 <= score < 60.0
    ensures GetRiskLevel(score).level == "LOW" <==> 20.0 <= score < 40.0
    ensures GetRiskLevel(score).level == "MINIMAL" <==> score < 20.0
  {
    FirstMetFour(80.0, 60.0, 40.0, 20.0, score);
  }

  /** A higher score never lands in a lower level. */
  lemma GetRiskLevelMonotone(a: real, b: real)
    requires a <= b
    ensures Rank(RISK_LEVELS, GetRiskLevel(b)) <= Rank(RISK_LEVELS, GetRiskLevel(a))
  {
    FirstMetMonotone(RISK_THRESHOLDS, a, b);
    RankOfEntry(RISK_LEVELS, FirstMet(RISK_THRESHOLDS, a));
    RankOfEntry(RISK_LEVELS, FirstMet(RISK_THRESHOLDS, b));
  }

  /** `getColorClass`: the text class of the score's level colour. */
  function GetColorClass(score: real): (c: string)
    ensures c == TEXT_CLASSES[FirstMet(RISK_THRESHOLDS, score)]
  {
    RankOfEntry(COLORS, FirstMet(RISK_THRESHOLDS, score));
    TextColorClass(GetRiskLevel(score).color)
  }

  /** `getBgColorClass`: the background class of the score's level colour. */
  function GetBgColorClass(score: real): (c: string)
    ensures c == BG_CLASSES[FirstMet(RISK_THRESHOLDS, score)]
  {
    RankOfEntry(COLORS, FirstMet(RISK_THRESHOLDS, score));
    BgColorClass(GetRiskLevel(score).color)
  }

  /** Both classes depend on the level only: two scores of the same level
      get the same classes, and scores of different levels get different
      ones. */
  lemma ClassesFollowLevel(a: real, b: real)
    ensures GetRiskLevel(a) == GetRiskLevel(b) <==> GetColorClass(a) == GetColorClass(b)
    ensures GetRiskLevel(a) == GetRiskLevel(b) <==> GetBgColorClass(a) == GetBgColorClass(b)
  {
    var ka, kb := FirstMet(RISK_THRESHOLDS, a), FirstMet(RISK_THRESHOLDS, b);
    TablesUnique();
    RankOfEntry(RISK_LEVELS, ka);
    RankOfEntry(RISK_LEVELS, kb);
    RankOfEntry(TEXT_CLASSES, ka);
    RankOfEntry(TEXT_CLASSES, kb);
    RankOfEntry(BG_CLASSES, ka);
    RankOfEntry(BG_CLASSES, kb);
  }

  /** The needle's angle in degrees: `score / 100 * 180 - 90`. */
  function Rotation(score: real): (deg: real)
    ensures 0.0 <= score <= 100.0 ==> -90.0 <= deg <= 90.0
  {
    score / 100.0 * 180.0 - 90.0
  }

  /** The needle sweeps from −90° at 0 to +90° at 100, 1.8° per point. */
  lemma RotationLinear(a: real, b: real)
    ensures Rotation(0.0) == -90.0 && Rotation(100.0) == 90.0
    ensures Rotation(b) - Rotation(a) == (b - a) * 1.8
    ensures a < b ==> Rotation(a) < Rotation(b)
  {
  }

  /** The displayed score 68 is a HIGH risk, drawn orange at 32.4°. */
  lemma RiskScoreReading()
    ensures GetRiskLevel(RISK_SCORE) == RiskLevel("HIGH", "orange")
    ensures Rotation(RISK_SCORE) == 32.4
  {
  }
}
