/** The qualitative risk category of the risk-assessment tool, and the shape
    of the tool's result. The statistics themselves (beta from a regression,
    annualised volatility, maximum drawdown, ...) come from numeric libraries
    and are inputs here. */
module Risk {
  import opened Common

  datatype RiskCategory = LowRisk | MediumRisk | HighRisk

  function Label(c: RiskCategory): string {
    match c
    case LowRisk => "Low Risk"
    case MediumRisk => "Medium Risk"
    case HighRisk => "High Risk"
  }

  /** Orders the categories from least to most risky. */
  function Rank(c: RiskCategory): nat {
    match c
    case LowRisk => 0
    case MediumRisk => 1
    case HighRisk => 2
  }

  function Abs(x: real): real { if x < 0.0 then -x else x }

  /** One component of the score: 1 below `low`, 2 from `low` to `high`
      inclusive, 3 above `high`. */
  function BandScore(x: real, low: real, high: real): (s: int)
    requires low <= high
    ensures 1 <= s <= 3
    ensures s == 1 <==> x < low
    ensures s == 3 <==> high < x
  {
    if x < low then 1
    else if low <= x <= high then 2
    else 3
  }

  function BetaScore(beta: real): int { BandScore(beta, 0.8, 1.2) }

  function VolatilityScore(volatility: real): int { BandScore(volatility, 0.15, 0.25) }

  function DrawdownScore(maxDrawdown: real): int { BandScore(Abs(maxDrawdown), 0.15, 0.3) }

  /** `risk_score` after the three `+=` steps. */
  function RiskScore(beta: real, volatility: real, maxDrawdown: real): (score: int)
    ensures 3 <= score <= 9
  {
    BetaScore(beta) + VolatilityScore(volatility) + DrawdownScore(maxDrawdown)
  }

  /** The category a total score maps to. */
  function CategoryOfScore(score: int): (c: RiskCategory)
    ensures c == LowRisk <==> score <= 4
    ensures c == MediumRisk <==> 5 <= score <= 7
    ensures c == HighRisk <==> 8 <= score
  {
    if score <= 4 then LowRisk
    else if score <= 7 then MediumRisk
    else HighRisk
  }

  /** `categorize_risk(beta, volatility, max_drawdown)`: low risk needs two of
      the three statistics below their bands, high risk two above them. */
  function CategorizeRisk(beta: real, volatility: real, maxDrawdown: real): (r: RiskCategory)
    ensures r == LowRisk ==>
      (beta < 0.8 && volatility < 0.15) || (beta < 0.8 && Abs(maxDrawdown) < 0.15) ||
      (volatility < 0.15 && Abs(maxDrawdown) < 0.15)
    ensures r == HighRisk ==>
      (beta > 1.2 && volatility > 0.25) || (beta > 1.2 && Abs(maxDrawdown) > 0.3) ||
      (volatility > 0.25 && Abs(maxDrawdown) > 0.3)
    ensures beta < 0.8 && volatility < 0.15 && Abs(maxDrawdown) < 0.15 ==> r == LowRisk
    ensures beta > 1.2 && volatility > 0.25 && Abs(maxDrawdown) > 0.3 ==> r == HighRisk
    ensures 0.8 <= beta <= 1.2 && 0.15 <= volatility <= 0.25 && 0.15 <= Abs(maxDrawdown) <= 0.3 ==> r == MediumRisk
  {
    CategoryOfScore(RiskScore(beta, volatility, maxDrawdown))
  }

  /** The thresholds themselves fall in the middle band. */
  lemma BoundariesAreMedium()
    ensures BetaScore(0.8) == 2 && BetaScore(1.2) == 2
    ensures VolatilityScore(0.15) == 2 && VolatilityScore(0.25) == 2
    ensures DrawdownScore(0.15) == 2 && DrawdownScore(-0.15) == 2
    ensures DrawdownScore(0.3) == 2 && DrawdownScore(-0.3) == 2
  {
  }

  /** Only the size of the drawdown counts, not its sign. */
  lemma DrawdownSignIrrelevant(beta: real, volatility: real, maxDrawdown: real)
    ensures CategorizeRisk(beta, volatility, maxDrawdown) == CategorizeRisk(beta, volatility, -maxDrawdown)
  {
    assert Abs(-maxDrawdown) == Abs(maxDrawdown);
  }

  lemma BandScoreMonotone(x: real, y: real, low: real, high: real)
    requires low <= high && x <= y
    ensures BandScore(x, low, high) <= BandScore(y, low, high)
  {
  }

  /** Riskier inputs never give a less risky category: raising beta, the
      volatility or the size of the drawdown can only raise the category. */
  lemma CategoryMonotone(beta1: real, vol1: real, dd1: real, beta2: real, vol2: real, dd2: real)
    requires beta1 <= beta2 && vol1 <= vol2 && Abs(dd1) <= Abs(dd2)
    ensures Rank(CategorizeRisk(beta1, vol1, dd1)) <= Rank(CategorizeRisk(beta2, vol2, dd2))
  {
    BandScoreMonotone(beta1, beta2, 0.8, 1.2);
    BandScoreMonotone(vol1, vol2, 0.15, 0.25);
    BandScoreMonotone(Abs(dd1), Abs(dd2), 0.15, 0.3);
  }

  /** The two worked examples: (1.0, 0.10, -0.05) scores 2 + 1 + 1 = 4, and
      (1.5, 0.30, -0.40) scores 3 + 3 + 3 = 9. */
  lemma WorkedExamples()
    ensures RiskScore(1.0, 0.10, -0.05) == 4 && Label(CategorizeRisk(1.0, 0.10, -0.05)) == "Low Risk"
    ensures RiskScore(1.5, 0.30, -0.40) == 9 && Label(CategorizeRisk(1.5, 0.30, -0.40)) == "High Risk"
  {
  }

  /** The statistics the category is computed from. */
  datatype RiskStatistics = RiskStatistics(volatility: real, beta: real, maxDrawdown: real)

  /** The tool's dictionary: the assessment, or {ticker, error, status: "failed"}. */
  datatype RiskReport =
    | Assessed(ticker: string, timePeriod: string, benchmark: string, statistics: RiskStatistics, riskCategory: string)
    | AssessmentFailed(ticker: string, error: string, status: string)

  /** `risk_assessment`: any exception while fetching or computing the
      statistics becomes the failure dictionary; the tool never raises. */
  function RiskAssessment(ticker: string, benchmark: string, period: string, statistics: Result<RiskStatistics>): (r: RiskReport)
    ensures r.ticker == ticker
    ensures r.AssessmentFailed? <==> statistics.Failure?
    ensures r.AssessmentFailed? ==> r.error == statistics.error && r.status == "failed"
    ensures r.Assessed? ==>
      r.timePeriod == period && r.benchmark == benchmark && r.statistics == statistics.value &&
      r.riskCategory in {"Low Risk", "Medium Risk", "High Risk"} &&
      r.riskCategory == Label(CategorizeRisk(r.statistics.beta, r.statistics.volatility, r.statistics.maxDrawdown))
  {
    match statistics
    case Failure(e) => AssessmentFailed(ticker, e, "failed")
    case Success(s) =>
      Assessed(ticker, period, benchmark, s, Label(CategorizeRisk(s.beta, s.volatility, s.maxDrawdown)))
  }
}
