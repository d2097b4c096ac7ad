/**
 * The failure-risk scoring engine: transactions are grouped by an entity
 * (merchant, provider, method, country) or by the full route, every group
 * is reduced to rates and a p95 latency, four weighted signals are summed
 * and mapped through a logistic curve, and the result is bucketed into a
 * risk level with recommended actions and a summary.
 */
module FailurePrediction {
  import opened Wrappers
  import opened Seqs
  import opened Strings
  import opened Sorting
  import opened Grouping
  import opened Entities
  import opened RateMetrics

  datatype EntityType = MerchantEntity | ProviderEntity | MethodEntity | CountryEntity | RouteEntity

  datatype RiskLevel = LowRisk | MediumRisk | HighRisk | CriticalRisk

  function LevelRank(l: RiskLevel): nat
  {
    match l
    case LowRisk => 0
    case MediumRisk => 1
    case HighRisk => 2
    case CriticalRisk => 3
  }

  // ---------------------------------------------------------------- config

  datatype Weights = Weights(error_rate: real, latency: real, approval_rate: real, trend: real)
  datatype Thresholds = Thresholds(critical: real, high: real, medium: real)
  datatype Normalization = Normalization(max_error_rate: real, max_latency: real, min_approval_rate: real)
  datatype Config = Config(weights: Weights, thresholds: Thresholds, normalization: Normalization)

  const DefaultConfig: Config :=
    Config(Weights(0.35, 0.25, 0.25, 0.15),
           Thresholds(0.75, 0.5, 0.25),
           Normalization(0.5, 10000.0, 0.3))

  /** A `PredictionConfigDto`: each group, and each field of a group, may be absent. */
  datatype WeightsPatch = WeightsPatch(error_rate: Option<real>, latency: Option<real>, approval_rate: Option<real>, trend: Option<real>)
  datatype ThresholdsPatch = ThresholdsPatch(critical: Option<real>, high: Option<real>, medium: Option<real>)
  datatype NormalizationPatch = NormalizationPatch(max_error_rate: Option<real>, max_latency: Option<real>, min_approval_rate: Option<real>)
  datatype ConfigPatch = ConfigPatch(weights: Option<WeightsPatch>, thresholds: Option<ThresholdsPatch>, normalization: Option<NormalizationPatch>)

  function MergeWeights(d: Weights, p: Option<WeightsPatch>): Weights
  {
    match p
    case None => d
    case Some(w) => Weights(OrElse(w.error_rate, d.error_rate), OrElse(w.latency, d.latency),
                            OrElse(w.approval_rate, d.approval_rate), OrElse(w.trend, d.trend))
  }

  function MergeThresholds(d: Thresholds, p: Option<ThresholdsPatch>): Thresholds
  {
    match p
    case None => d
    case Some(t) => Thresholds(OrElse(t.critical, d.critical), OrElse(t.high, d.high), OrElse(t.medium, d.medium))
  }

  function MergeNormalization(d: Normalization, p: Option<NormalizationPatch>): Normalization
  {
    match p
    case None => d
    case Some(n) => Normalization(OrElse(n.max_error_rate, d.max_error_rate), OrElse(n.max_latency, d.max_latency),
                                  OrElse(n.min_approval_rate, d.min_approval_rate))
  }

  /** `{ ...defaults.group, ...config.group }` for each of the three groups. */
  function MergeConfig(config: Option<ConfigPatch>): (c: Config)
    ensures config.None? ==> c == DefaultConfig
  {
    match config
    case None => DefaultConfig
    case Some(p) => Config(MergeWeights(DefaultConfig.weights, p.weights),
                           MergeThresholds(DefaultConfig.thresholds, p.thresholds),
                           MergeNormalization(DefaultConfig.normalization, p.normalization))
  }

  /** The patch that spells out every field of `c`. */
  function FullPatch(c: Config): ConfigPatch
  {
    ConfigPatch(
      Some(WeightsPatch(Some(c.weights.error_rate), Some(c.weights.latency), Some(c.weights.approval_rate), Some(c.weights.trend))),
      Some(ThresholdsPatch(Some(c.thresholds.critical), Some(c.thresholds.high), Some(c.thresholds.medium))),
      Some(NormalizationPatch(Some(c.normalization.max_error_rate), Some(c.normalization.max_latency), Some(c.normalization.min_approval_rate))))
  }

  /** A patch that names every field replaces the defaults completely. */
  lemma MergeFullPatch(c: Config)
    ensures MergeConfig(Some(FullPatch(c))) == c
  {
  }

  /** A patch that names nothing leaves the defaults. */
  lemma MergeEmptyPatch(p: ConfigPatch)
    requires p.weights.None? || p.weights == Some(WeightsPatch(None, None, None, None))
    requires p.thresholds.None? || p.thresholds == Some(ThresholdsPatch(None, None, None))
    requires p.normalization.None? || p.normalization == Some(NormalizationPatch(None, None, None))
    ensures MergeConfig(Some(p)) == DefaultConfig
  {
  }

  /** A field given in the patch wins; an absent field keeps its default. */
  lemma MergeFieldwise(p: ConfigPatch)
    ensures p.thresholds.Some? && p.thresholds.value.critical.Some? ==>
              MergeConfig(Some(p)).thresholds.critical == p.thresholds.value.critical.value
    ensures (p.thresholds.None? || p.thresholds.value.critical.None?) ==>
              MergeConfig(Some(p)).thresholds.critical == 0.75
    ensures p.normalization.Some? && p.normalization.value.max_error_rate.Some? ==>
              MergeConfig(Some(p)).normalization.max_error_rate == p.normalization.value.max_error_rate.value
    ensures (p.normalization.None? || p.normalization.value.max_error_rate.None?) ==>
              MergeConfig(Some(p)).normalization.max_error_rate == 0.5
  {
  }

  /** The divisions of the scoring step are defined (no division by zero). */
  predicate ValidNormalization(n: Normalization)
  {
    n.max_error_rate != 0.0 && n.max_latency != 0.0 && n.min_approval_rate != 1.0
  }

  // ---------------------------------------------------------------- metrics

  datatype EntityMetrics = EntityMetrics(
    error_rate: real,
    approval_rate: real,
    p95_latency: int,
    sample_size: nat,
    recent_error_rate: real,
    baseline_error_rate: real)

  function CalculateMetrics(recent: seq<Transaction>, baseline: seq<Transaction>): (m: EntityMetrics)
    ensures m.sample_size == |recent| && m.recent_error_rate == m.error_rate
    ensures |recent| == 0 ==> m.error_rate == 0.0 && m.approval_rate == 0.0 && m.p95_latency == 0
    ensures m.error_rate == Rate(Count(recent, IsFailed), |recent|)
    ensures m.approval_rate == Rate(Count(recent, IsApproved), |recent|)
    ensures 0.0 <= m.error_rate && 0.0 <= m.approval_rate && m.error_rate + m.approval_rate <= 1.0
    ensures 0.0 <= m.baseline_error_rate <= 1.0
    ensures m.baseline_error_rate == Rate(Count(baseline, IsFailed), |baseline|)
    ensures |recent| > 0 ==> m.p95_latency in Latencies(recent)
  {
    var er, ar, br := ErrorRate(recent), ApprovalRate(recent), ErrorRate(baseline);
    RatesDisjoint(recent);
    var p95 := P95Latency(recent);
    EntityMetrics(er, ar, p95, |recent|, er, br)
  }

  // ---------------------------------------------------------------- signals

  datatype SignalName = ErrorRateSignal | LatencySignal | ApprovalRateSignal | TrendSignal

  datatype Signal = Signal(name: SignalName, value: real, normalized_value: real, weight: real, contribution: real)

  function Min(a: real, b: real): real { if a <= b then a else b }
  function Max(a: real, b: real): real { if a >= b then a else b }

  /** A signal whose contribution is filled in from its normalized value and weight. */
  function MakeSignal(name: SignalName, value: real, normalized: real, weight: real): (s: Signal)
    ensures s.name == name && s.value == value && s.normalized_value == normalized && s.weight == weight
    ensures s.contribution == normalized * weight
  {
    Signal(name, value, normalized, weight, normalized * weight)
  }

  function ErrorTrend(m: EntityMetrics): real
  {
    m.recent_error_rate - m.baseline_error_rate
  }

  /** The four signals, in the order error rate, latency, approval rate, trend. */
  function BuildSignals(m: EntityMetrics, c: Config): (s: seq<Signal>)
    requires ValidNormalization(c.normalization)
    ensures |s| == 4
    ensures s[0].name == ErrorRateSignal && s[1].name == LatencySignal
    ensures s[2].name == ApprovalRateSignal && s[3].name == TrendSignal
    ensures s[0].value == m.error_rate && s[1].value == m.p95_latency as real
    ensures s[2].value == m.approval_rate && s[3].value == ErrorTrend(m)
    ensures s[0].weight == c.weights.error_rate && s[1].weight == c.weights.latency
    ensures s[2].weight == c.weights.approval_rate && s[3].weight == c.weights.trend
    ensures s[0].contribution == s[0].normalized_value * s[0].weight
    ensures s[1].contribution == s[1].normalized_value * s[1].weight
    ensures s[2].contribution == s[2].normalized_value * s[2].weight
    ensures s[3].contribution == s[3].normalized_value * s[3].weight
    ensures s[0].normalized_value == CappedRatio(m.error_rate, c.normalization.max_error_rate)
    ensures s[1].normalized_value == CappedRatio(m.p95_latency as real, c.normalization.max_latency)
    ensures s[2].normalized_value == ApprovalGapRatio(m.approval_rate, c.normalization.min_approval_rate)
    ensures s[3].normalized_value == TrendRatio(ErrorTrend(m), c.normalization.max_error_rate)
  {
    var n := c.normalization;
    var w := c.weights;
    var errors := MakeSignal(ErrorRateSignal, m.error_rate, CappedRatio(m.error_rate, n.max_error_rate), w.error_rate);
    var latency := MakeSignal(LatencySignal, m.p95_latency as real, CappedRatio(m.p95_latency as real, n.max_latency), w.latency);
    var approval := MakeSignal(ApprovalRateSignal, m.approval_rate, ApprovalGapRatio(m.approval_rate, n.min_approval_rate),
                               w.approval_rate);
    var trend := MakeSignal(TrendSignal, ErrorTrend(m), TrendRatio(ErrorTrend(m), n.max_error_rate), w.trend);
    var s := [errors, latency, approval, trend];
    assert s[0] == errors && s[1] == latency && s[2] == approval && s[3] == trend;
    s
  }

  /** `Math.min(value / bound, 1)`. */
  function CappedRatio(value: real, bound: real): (v: real)
    requires bound != 0.0
    ensures v <= 1.0
    ensures bound > 0.0 && value >= 0.0 ==> 0.0 <= v
    ensures bound > 0.0 && value < bound ==> v == value / bound
    ensures bound > 0.0 && value >= bound ==> v == 1.0
  {
    Min(value / bound, 1.0)
  }

  /** `Math.max(minApproval - approval, 0) / (1 - minApproval)`: how far the approval rate falls short of the minimum. */
  function ApprovalGapRatio(approval: real, minApproval: real): (v: real)
    requires minApproval != 1.0
    ensures approval >= minApproval ==> v == 0.0
    ensures 0.0 <= minApproval < 1.0 && approval >= 0.0 ==> 0.0 <= v <= minApproval / (1.0 - minApproval)
  {
    var gap := Max(minApproval - approval, 0.0);
    ApprovalGapBound(gap, minApproval, approval);
    gap / (1.0 - minApproval)
  }

  /** `Math.max(0, Math.min(trend / maxError, 1))`: only a rising error rate counts. */
  function TrendRatio(trend: real, maxError: real): (v: real)
    requires maxError != 0.0
    ensures 0.0 <= v <= 1.0
    ensures maxError > 0.0 && trend <= 0.0 ==> v == 0.0
  {
    if maxError > 0.0 && trend <= 0.0 then
      DivMonotone(trend, 0.0, maxError);
      Max(0.0, Min(trend / maxError, 1.0))
    else
      Max(0.0, Min(trend / maxError, 1.0))
  }

  lemma ApprovalGapBound(gap: real, minApproval: real, approval: real)
    requires minApproval != 1.0
    requires gap == Max(minApproval - approval, 0.0)
    ensures 0.0 <= minApproval < 1.0 && approval >= 0.0 ==>
              0.0 <= gap / (1.0 - minApproval) <= minApproval / (1.0 - minApproval)
  {
    if 0.0 <= minApproval < 1.0 && approval >= 0.0 {
      DivMonotone(0.0, gap, 1.0 - minApproval);
      DivMonotone(gap, minApproval, 1.0 - minApproval);
    }
  }

  lemma DivMonotone(a: real, b: real, d: real)
    requires a <= b && d > 0.0
    ensures a / d <= b / d
  {
  }

  lemma CappedRatioMonotone(v1: real, v2: real, bound: real)
    requires bound > 0.0 && v1 <= v2
    ensures CappedRatio(v1, bound) <= CappedRatio(v2, bound)
  {
    DivMonotone(v1, v2, bound);
  }

  lemma TrendRatioMonotone(t1: real, t2: real, maxError: real)
    requires maxError > 0.0 && t1 <= t2
    ensures TrendRatio(t1, maxError) <= TrendRatio(t2, maxError)
  {
    DivMonotone(t1, t2, maxError);
  }

  datatype TrendDirection = Degrading | Improving | Stable

  function TrendDirectionOf(errorTrend: real): TrendDirection
  {
    if errorTrend > 0.05 then Degrading
    else if errorTrend < -0.05 then Improving
    else Stable
  }

  function Opposite(d: TrendDirection): TrendDirection
  {
    match d
    case Degrading => Improving
    case Improving => Degrading
    case Stable => Stable
  }

  /** The trend bands are symmetric around 0: negating the trend swaps degrading and improving. */
  lemma TrendDirectionSymmetric(t: real)
    ensures TrendDirectionOf(-t) == Opposite(TrendDirectionOf(t))
  {
  }

  function Contributions(s: seq<Signal>): (cs: seq<real>)
    ensures |cs| == |s| && forall i :: 0 <= i < |s| ==> cs[i] == s[i].contribution
  {
    seq(|s|, i requires 0 <= i < |s| => s[i].contribution)
  }

  /** `signals.reduce((sum, s) => sum + s.contribution, 0)`. */
  function RawScore(s: seq<Signal>): real
  {
    Sum(Contributions(s))
  }

  lemma RawScoreOfFour(s: seq<Signal>)
    requires |s| == 4
    ensures RawScore(s) == s[0].contribution + s[1].contribution + s[2].contribution + s[3].contribution
  {
    var cs := Contributions(s);
    var c3, c2, c1 := cs[..3], cs[..2], cs[..1];
    assert c3[..2] == c2 && c2[..1] == c1 && c1[..0] == [];
    assert Sum(c1) == cs[0];
    assert Sum(c2) == cs[0] + cs[1];
    assert Sum(c3) == cs[0] + cs[1] + cs[2];
  }

  // ---------------------------------------------------------------- probability and level

  /** The logistic `1 / (1 + e^-z)`: strictly increasing with values in (0, 1). */
  ghost predicate IsLogistic(logistic: real -> real)
  {
    (forall z :: 0.0 < logistic(z) < 1.0) &&
    (forall z1, z2 :: z1 < z2 ==> logistic(z1) < logistic(z2))
  }

  const SLOPE: real := 10.0

  /** `1 / (1 + exp(-k * (rawScore - 0.5)))` with k = 10. */
  function Probability(rawScore: real, logistic: real -> real): real
  {
    logistic(SLOPE * (rawScore - 0.5))
  }

  lemma ProbabilityInUnitInterval(rawScore: real, logistic: real -> real)
    requires IsLogistic(logistic)
    ensures 0.0 < Probability(rawScore, logistic) < 1.0
  {
  }

  lemma ProbabilityMonotone(r1: real, r2: real, logistic: real -> real)
    requires IsLogistic(logistic)
    requires r1 <= r2
    ensures Probability(r1, logistic) <= Probability(r2, logistic)
  {
    if r1 < r2 {
      assert SLOPE * (r1 - 0.5) < SLOPE * (r2 - 0.5);
    }
  }

  function RiskLevelFor(probability: real, t: Thresholds): RiskLevel
  {
    if probability >= t.critical then CriticalRisk
    else if probability >= t.high then HighRisk
    else if probability >= t.medium then MediumRisk
    else LowRisk
  }

  predicate OrderedThresholds(t: Thresholds)
  {
    t.medium <= t.high <= t.critical
  }

  /** With ordered thresholds each level is exactly one probability band. */
  lemma RiskLevelBands(p: real, t: Thresholds)
    requires OrderedThresholds(t)
    ensures RiskLevelFor(p, t) == CriticalRisk <==> t.critical <= p
    ensures RiskLevelFor(p, t) == HighRisk <==> t.high <= p < t.critical
    ensures RiskLevelFor(p, t) == MediumRisk <==> t.medium <= p < t.high
    ensures RiskLevelFor(p, t) == LowRisk <==> p < t.medium
  {
  }

  /** With ordered thresholds a higher probability never gives a lower level. */
  lemma RiskLevelMonotone(p1: real, p2: real, t: Thresholds)
    requires OrderedThresholds(t)
    requires p1 <= p2
    ensures LevelRank(RiskLevelFor(p1, t)) <= LevelRank(RiskLevelFor(p2, t))
  {
  }

  // ---------------------------------------------------------------- recommendations

  datatype Action =
    | ReviewErrorLogs | VerifyProviderConnectivity | ActivateBackupProvider
    | InvestigatePerformance | ReviewTimeouts | CheckSystemLoad
    | AnalyzeDeclineReasons | ReviewBusinessRules | EvaluateAlternativeMethod
    | MonitorDegradingTrend | PrepareContingencyPlan
    | ImmediateActionRequired | ConsiderAutomaticFailover
    | KeepUnderObservation | IncreaseMonitoringFrequency

  /** Index of the first signal holding the largest contribution. */
  function DominantIndex(s: seq<Signal>): (k: nat)
    requires |s| > 0
    ensures k < |s|
    ensures forall j :: 0 <= j < |s| ==> s[j].contribution <= s[k].contribution
    ensures forall j :: 0 <= j < k ==> s[j].contribution < s[k].contribution
    decreases |s|
  {
    if |s| == 1 then 0
    else
      var k := DominantIndex(s[..|s| - 1]);
      assert forall j :: 0 <= j < |s| - 1 ==> s[..|s| - 1][j] == s[j];
      if s[|s| - 1].contribution > s[k].contribution then |s| - 1 else k
  }

  /** The actions the switch statement adds for the dominant signal. */
  function SignalActions(name: SignalName, entityType: EntityType): seq<Action>
  {
    match name
    case ErrorRateSignal =>
      [ReviewErrorLogs, VerifyProviderConnectivity] + (if entityType == ProviderEntity then [ActivateBackupProvider] else [])
    case LatencySignal => [InvestigatePerformance, ReviewTimeouts, CheckSystemLoad]
    case ApprovalRateSignal =>
      [AnalyzeDeclineReasons, ReviewBusinessRules] + (if entityType == MethodEntity then [EvaluateAlternativeMethod] else [])
    case TrendSignal => [MonitorDegradingTrend, PrepareContingencyPlan]
  }

  function Recommendations(signals: seq<Signal>, level: RiskLevel, entityType: EntityType): (r: seq<Action>)
    ensures level == LowRisk ==> r == []
    ensures level == MediumRisk ==> r == [KeepUnderObservation, IncreaseMonitoringFrequency]
    ensures level == CriticalRisk ==> |r| > 0 && r[0] == ImmediateActionRequired
    ensures level == CriticalRisk && entityType == ProviderEntity ==> r[|r| - 1] == ConsiderAutomaticFailover
    ensures level == HighRisk ==> ImmediateActionRequired !in r && ConsiderAutomaticFailover !in r
    ensures (level == HighRisk || level == CriticalRisk) && |signals| > 0 ==>
              var acts := SignalActions(signals[DominantIndex(signals)].name, entityType);
              var o := if level == CriticalRisk then 1 else 0;
              o + |acts| <= |r| && r[o..o + |acts|] == acts
  {
    if level == CriticalRisk || level == HighRisk then
      var acts := if |signals| > 0 then SignalActions(signals[DominantIndex(signals)].name, entityType) else [];
      if level == CriticalRisk then
        var r := [ImmediateActionRequired] + acts + (if entityType == ProviderEntity then [ConsiderAutomaticFailover] else []);
        assert r[1..1 + |acts|] == acts;
        r
      else
        assert acts[..] == acts;
        acts
    else if level == MediumRisk then [KeepUnderObservation, IncreaseMonitoringFrequency]
    else []
  }

  // ---------------------------------------------------------------- one prediction

  datatype BaselineComparison = BaselineComparison(current_error_rate: real, baseline_error_rate: real, deviation_percentage: real)
  datatype Trend = Trend(direction: TrendDirection, rate_of_change: real)

  datatype FailureProbability = FailureProbability(
    entity_type: EntityType,
    entity_id: string,
    entity_name: string,
    probability: real,
    risk_level: RiskLevel,
    signals: seq<Signal>,
    confidence: real,
    sample_size: nat,
    baseline_comparison: BaselineComparison,
    trend: Trend,
    recommended_actions: seq<Action>,
    timestamp: int)

  function CalculateFailureProbability(entityType: EntityType, entityId: string, entityName: string,
                                       m: EntityMetrics, c: Config, logistic: real -> real, now: int): (p: FailureProbability)
    requires ValidNormalization(c.normalization)
    ensures p.entity_type == entityType && p.entity_id == entityId && p.entity_name == entityName
    ensures p.signals == BuildSignals(m, c)
    ensures p.probability == Probability(RawScore(p.signals), logistic)
    ensures p.risk_level == RiskLevelFor(p.probability, c.thresholds)
    ensures p.sample_size == m.sample_size
    ensures p.confidence == Min(m.sample_size as real / 100.0, 1.0) && 0.0 <= p.confidence <= 1.0
    ensures m.sample_size >= 100 ==> p.confidence == 1.0
    ensures p.baseline_comparison.current_error_rate == m.recent_error_rate
    ensures p.baseline_comparison.baseline_error_rate == m.baseline_error_rate
    ensures m.baseline_error_rate <= 0.0 ==> p.baseline_comparison.deviation_percentage == 0.0
    ensures p.trend == Trend(TrendDirectionOf(ErrorTrend(m)), ErrorTrend(m))
    ensures p.recommended_actions == Recommendations(p.signals, p.risk_level, entityType)
    ensures p.timestamp == now
  {
    var signals := BuildSignals(m, c);
    var probability := Probability(RawScore(signals), logistic);
    var level := RiskLevelFor(probability, c.thresholds);
    var trend := ErrorTrend(m);
    var deviation := if m.baseline_error_rate > 0.0 then (trend / m.baseline_error_rate) * 100.0 else 0.0;
    FailureProbability(entityType, entityId, entityName, probability, level, signals,
                       Min(m.sample_size as real / 100.0, 1.0), m.sample_size,
                       BaselineComparison(m.recent_error_rate, m.baseline_error_rate, deviation),
                       Trend(TrendDirectionOf(trend), trend),
                       Recommendations(signals, level, entityType), now)
  }

  /** The probability of a scored group always lies strictly between 0 and 1. */
  lemma ScoredProbabilityInRange(entityType: EntityType, id: string, name: string, m: EntityMetrics, c: Config,
                                 logistic: real -> real, now: int)
    requires ValidNormalization(c.normalization)
    requires IsLogistic(logistic)
    ensures 0.0 < CalculateFailureProbability(entityType, id, name, m, c, logistic, now).probability < 1.0
  {
  }

  lemma MulMonotone(a: real, b: real, w: real)
    requires a <= b && w >= 0.0
    ensures a * w <= b * w
  {
  }

  lemma ErrorRateRaisesRawScore(m1: EntityMetrics, e2: real, c: Config)
    requires ValidNormalization(c.normalization) && c.normalization.max_error_rate > 0.0
    requires c.weights.error_rate >= 0.0 && c.weights.trend >= 0.0
    requires m1.recent_error_rate == m1.error_rate && m1.error_rate <= e2
    ensures RawScore(BuildSignals(m1, c)) <= RawScore(BuildSignals(m1.(error_rate := e2, recent_error_rate := e2), c))
  {
    var m2 := m1.(error_rate := e2, recent_error_rate := e2);
    var s1, s2 := BuildSignals(m1, c), BuildSignals(m2, c);
    ErrorContributionMonotone(m1, m2, c);
    TrendContributionMonotone(m1, m2, c);
    assert s1[1] == s2[1] && s1[2] == s2[2];
    RawScoreOfFour(s1);
    RawScoreOfFour(s2);
  }

  lemma ErrorContributionMonotone(m1: EntityMetrics, m2: EntityMetrics, c: Config)
    requires ValidNormalization(c.normalization) && c.normalization.max_error_rate > 0.0
    requires c.weights.error_rate >= 0.0 && m1.error_rate <= m2.error_rate
    ensures BuildSignals(m1, c)[0].contribution <= BuildSignals(m2, c)[0].contribution
  {
    var v1 := CappedRatio(m1.error_rate, c.normalization.max_error_rate);
    var v2 := CappedRatio(m2.error_rate, c.normalization.max_error_rate);
    CappedRatioMonotone(m1.error_rate, m2.error_rate, c.normalization.max_error_rate);
    MulMonotone(v1, v2, c.weights.error_rate);
  }

  lemma TrendContributionMonotone(m1: EntityMetrics, m2: EntityMetrics, c: Config)
    requires ValidNormalization(c.normalization) && c.normalization.max_error_rate > 0.0
    requires c.weights.trend >= 0.0 && ErrorTrend(m1) <= ErrorTrend(m2)
    ensures BuildSignals(m1, c)[3].contribution <= BuildSignals(m2, c)[3].contribution
  {
    var v1 := TrendRatio(ErrorTrend(m1), c.normalization.max_error_rate);
    var v2 := TrendRatio(ErrorTrend(m2), c.normalization.max_error_rate);
    TrendRatioMonotone(ErrorTrend(m1), ErrorTrend(m2), c.normalization.max_error_rate);
    MulMonotone(v1, v2, c.weights.trend);
  }

  /**
   * A higher error rate never lowers the failure probability, with non-negative
   * error and trend weights and a positive error-rate bound. The error rate is
   * also the recent error rate, so both the error and the trend signal move.
   */
  lemma ErrorRateRaisesProbability(m1: EntityMetrics, e2: real, c: Config, logistic: real -> real)
    requires IsLogistic(logistic)
    requires ValidNormalization(c.normalization) && c.normalization.max_error_rate > 0.0
    requires c.weights.error_rate >= 0.0 && c.weights.trend >= 0.0
    requires m1.recent_error_rate == m1.error_rate && m1.error_rate <= e2
    ensures var m2 := m1.(error_rate := e2, recent_error_rate := e2);
            Probability(RawScore(BuildSignals(m1, c)), logistic) <= Probability(RawScore(BuildSignals(m2, c)), logistic)
  {
    var m2 := m1.(error_rate := e2, recent_error_rate := e2);
    ErrorRateRaisesRawScore(m1, e2, c);
    ProbabilityMonotone(RawScore(BuildSignals(m1, c)), RawScore(BuildSignals(m2, c)), logistic);
  }

  // ---------------------------------------------------------------- route keys and names

  /** `${merchant_id}|${provider_id}|${method_id}|${country_code}`. */
  function RouteKey(tx: Transaction): string
  {
    Join([tx.merchant_id, tx.provider_id, tx.method_id, tx.country_code], '|')
  }

  predicate NoSeparatorInIds(tx: Transaction)
  {
    '|' !in tx.merchant_id && '|' !in tx.provider_id && '|' !in tx.method_id && '|' !in tx.country_code
  }

  /** A route key splits back into its four ids when no id contains `|`. */
  lemma RouteKeySplits(tx: Transaction)
    requires NoSeparatorInIds(tx)
    ensures Split(RouteKey(tx), '|') == [tx.merchant_id, tx.provider_id, tx.method_id, tx.country_code]
  {
    SplitJoin([tx.merchant_id, tx.provider_id, tx.method_id, tx.country_code], '|');
  }

  /** Two transactions share a route key exactly when they share all four ids (no `|` in the ids). */
  lemma RouteKeyInjective(a: Transaction, b: Transaction)
    requires NoSeparatorInIds(a) && NoSeparatorInIds(b)
    ensures RouteKey(a) == RouteKey(b) <==>
              a.merchant_id == b.merchant_id && a.provider_id == b.provider_id &&
              a.method_id == b.method_id && a.country_code == b.country_code
  {
    RouteKeySplits(a);
    RouteKeySplits(b);
  }

  function EntityKey(entityType: EntityType, tx: Transaction): string
  {
    match entityType
    case MerchantEntity => tx.merchant_id
    case ProviderEntity => tx.provider_id
    case MethodEntity => tx.method_id
    case CountryEntity => tx.country_code
    case RouteEntity => RouteKey(tx)
  }

  function KeyFn(entityType: EntityType): Transaction -> string
  {
    tx => EntityKey(entityType, tx)
  }

  /** Display names by id (countries by code), as loaded from the catalogue tables. */
  datatype NameTables = NameTables(
    merchants: map<string, string>,
    providers: map<string, string>,
    methods: map<string, string>,
    countries: map<string, string>)

  /** `names.get(id) || 'Unknown'`. */
  function NameOrUnknown(names: map<string, string>, id: string): string
  {
    if id in names && names[id] != "" then names[id] else "Unknown"
  }

  /** A destructured part of `split('|')`; a missing part is `undefined`. */
  function PartAt(parts: seq<string>, i: nat): string
  {
    if i < |parts| then parts[i] else "undefined"
  }

  function EntityName(entityType: EntityType, id: string, names: NameTables): string
  {
    match entityType
    case MerchantEntity => NameOrUnknown(names.merchants, id)
    case ProviderEntity => NameOrUnknown(names.providers, id)
    case MethodEntity => NameOrUnknown(names.methods, id)
    case CountryEntity => NameOrUnknown(names.countries, id)
    case RouteEntity =>
      var parts := Split(id, '|');
      NameOrUnknown(names.merchants, parts[0]) + " → " + NameOrUnknown(names.providers, PartAt(parts, 1)) +
      " → " + NameOrUnknown(names.methods, PartAt(parts, 2)) + " (" + PartAt(parts, 3) + ")"
  }

  // ---------------------------------------------------------------- analysing groups

  /** What one group adds: nothing below the minimum sample size, else its scored prediction. */
  function Scored(entityType: EntityType, k: string, group: seq<Transaction>, baselineGroup: seq<Transaction>,
                  c: Config, minSampleSize: int, names: NameTables, logistic: real -> real, now: int): seq<FailureProbability>
    requires ValidNormalization(c.normalization)
  {
    if |group| < minSampleSize then []
    else [CalculateFailureProbability(entityType, k, EntityName(entityType, k, names),
                                      CalculateMetrics(group, baselineGroup), c, logistic, now)]
  }

  /** A group yields one prediction, about itself, exactly when it holds the minimum sample size. */
  lemma ScoredShape(entityType: EntityType, k: string, group: seq<Transaction>, baselineGroup: seq<Transaction>,
                    c: Config, minSampleSize: int, names: NameTables, logistic: real -> real, now: int)
    requires ValidNormalization(c.normalization)
    ensures var sc := Scored(entityType, k, group, baselineGroup, c, minSampleSize, names, logistic, now);
            (|sc| == 0 <==> |group| < minSampleSize) && |sc| <= 1 &&
            (|sc| == 1 ==> sc[0].entity_id == k && sc[0].entity_type == entityType && sc[0].sample_size == |group|)
  {
  }

  /** The predictions for the groups named in `keys`, skipping groups below the minimum sample size. */
  function Predictions(entityType: EntityType, keys: seq<string>, recent: seq<Transaction>, baseline: seq<Transaction>,
                       c: Config, minSampleSize: int, names: NameTables, logistic: real -> real, now: int): seq<FailureProbability>
    requires ValidNormalization(c.normalization)
    decreases |keys|
  {
    if |keys| == 0 then []
    else
      var k := keys[|keys| - 1];
      Predictions(entityType, keys[..|keys| - 1], recent, baseline, c, minSampleSize, names, logistic, now) +
      Scored(entityType, k, Members(recent, KeyFn(entityType), k), Members(baseline, KeyFn(entityType), k),
             c, minSampleSize, names, logistic, now)
  }

  /** One more group key: its prediction is appended when the group is large enough. */
  lemma PredictionsSnoc(entityType: EntityType, keys: seq<string>, k: string, recent: seq<Transaction>, baseline: seq<Transaction>,
                        c: Config, minSampleSize: int, names: NameTables, logistic: real -> real, now: int)
    requires ValidNormalization(c.normalization)
    ensures Predictions(entityType, keys + [k], recent, baseline, c, minSampleSize, names, logistic, now) ==
              Predictions(entityType, keys, recent, baseline, c, minSampleSize, names, logistic, now) +
              Scored(entityType, k, Members(recent, KeyFn(entityType), k), Members(baseline, KeyFn(entityType), k),
                     c, minSampleSize, names, logistic, now)
  {
    assert (keys + [k])[..|keys|] == keys;
  }

  /** Every prediction comes from a group of the requested kind with enough samples. */
  lemma {:induction false} PredictionsRespectMinSample(entityType: EntityType, keys: seq<string>, recent: seq<Transaction>,
      baseline: seq<Transaction>, c: Config, minSampleSize: int, names: NameTables, logistic: real -> real, now: int)
    requires ValidNormalization(c.normalization)
    ensures var ps := Predictions(entityType, keys, recent, baseline, c, minSampleSize, names, logistic, now);
            |ps| <= |keys| &&
            forall i :: 0 <= i < |ps| ==>
              ps[i].sample_size >= minSampleSize && ps[i].entity_id in keys && ps[i].entity_type == entityType &&
              ps[i].sample_size == |Members(recent, KeyFn(entityType), ps[i].entity_id)|
    decreases |keys|
  {
    if |keys| > 0 {
      var init, k := keys[..|keys| - 1], keys[|keys| - 1];
      assert keys == init + [k];
      PredictionsRespectMinSample(entityType, init, recent, baseline, c, minSampleSize, names, logistic, now);
      PredictionsSnoc(entityType, init, k, recent, baseline, c, minSampleSize, names, logistic, now);
      var rest := Predictions(entityType, init, recent, baseline, c, minSampleSize, names, logistic, now);
      var ps := Predictions(entityType, keys, recent, baseline, c, minSampleSize, names, logistic, now);
      var group := Members(recent, KeyFn(entityType), k);
      var sc := Scored(entityType, k, group, Members(baseline, KeyFn(entityType), k), c, minSampleSize, names, logistic, now);
      ScoredShape(entityType, k, group, Members(baseline, KeyFn(entityType), k), c, minSampleSize, names, logistic, now);
      assert ps == rest + sc;
      if |sc| == 1 {
        forall i | 0 <= i < |ps|
          ensures ps[i].sample_size >= minSampleSize && ps[i].entity_id in keys && ps[i].entity_type == entityType &&
                  ps[i].sample_size == |Members(recent, KeyFn(entityType), ps[i].entity_id)|
        {
          if i < |rest| {
            assert ps[i] == rest[i] && rest[i].entity_id in init;
          } else {
            assert ps[i] == sc[0];
          }
        }
      } else {
        assert ps == rest;
        assert forall x :: x in init ==> x in keys;
      }
    }
  }

  /**
   * The predictions for all but the last key are a prefix of those for all keys, and a last group
   * holding the minimum sample size adds its own prediction right after them.
   */
  lemma PredictionsExtend(entityType: EntityType, keys: seq<string>, recent: seq<Transaction>, baseline: seq<Transaction>,
                          c: Config, minSampleSize: int, names: NameTables, logistic: real -> real, now: int)
    requires ValidNormalization(c.normalization)
    requires |keys| > 0
    ensures var ps := Predictions(entityType, keys, recent, baseline, c, minSampleSize, names, logistic, now);
            var ps' := Predictions(entityType, keys[..|keys| - 1], recent, baseline, c, minSampleSize, names, logistic, now);
            var last := keys[|keys| - 1];
            |ps'| <= |ps| && ps[..|ps'|] == ps' &&
            (|Members(recent, KeyFn(entityType), last)| >= minSampleSize ==> |ps'| < |ps| && ps[|ps'|].entity_id == last)
  {
    var last := keys[|keys| - 1];
    ScoredShape(entityType, last, Members(recent, KeyFn(entityType), last), Members(baseline, KeyFn(entityType), last),
                c, minSampleSize, names, logistic, now);
  }

  /** A group holding at least the minimum sample size always yields a prediction. */
  lemma {:induction false} LargeGroupsArePredicted(entityType: EntityType, keys: seq<string>, recent: seq<Transaction>,
      baseline: seq<Transaction>, c: Config, minSampleSize: int, names: NameTables, logistic: real -> real, now: int, k: string)
    requires ValidNormalization(c.normalization)
    requires k in keys && |Members(recent, KeyFn(entityType), k)| >= minSampleSize
    ensures exists i :: 0 <= i < |Predictions(entityType, keys, recent, baseline, c, minSampleSize, names, logistic, now)| &&
              Predictions(entityType, keys, recent, baseline, c, minSampleSize, names, logistic, now)[i].entity_id == k
    decreases |keys|
  {
    var keys' := keys[..|keys| - 1];
    PredictionsExtend(entityType, keys, recent, baseline, c, minSampleSize, names, logistic, now);
    if keys[|keys| - 1] != k {
      assert k in keys';
      LargeGroupsArePredicted(entityType, keys', recent, baseline, c, minSampleSize, names, logistic, now, k);
    }
  }

  /** The loop body of `analyzeEntities`: a group below the minimum sample size is skipped, any other is scored. */
  method ScoreGroup(entityType: EntityType, k: string, transactions: seq<Transaction>, baselineTxs: seq<Transaction>,
                    c: Config, minSampleSize: int, names: NameTables, logistic: real -> real, now: int)
    returns (scored: seq<FailureProbability>)
    requires ValidNormalization(c.normalization)
    ensures scored == Scored(entityType, k, transactions, baselineTxs, c, minSampleSize, names, logistic, now)
  {
    scored := [];
    if |transactions| >= minSampleSize {
      var metrics := CalculateMetrics(transactions, baselineTxs);
      var prediction := CalculateFailureProbability(entityType, k, EntityName(entityType, k, names), metrics, c, logistic, now);
      scored := [prediction];
    }
  }

  /** One step of `analyzeEntities`: scoring the group `order[i]` extends the predictions for `order[..i]`. */
  lemma AnalyzeStep(entityType: EntityType, order: seq<string>, i: int, recent: seq<Transaction>, baseline: seq<Transaction>,
                    transactions: seq<Transaction>, baselineTxs: seq<Transaction>, c: Config, minSampleSize: int,
                    names: NameTables, logistic: real -> real, now: int)
    requires ValidNormalization(c.normalization)
    requires 0 <= i < |order|
    requires transactions == Members(recent, KeyFn(entityType), order[i])
    requires baselineTxs == Members(baseline, KeyFn(entityType), order[i])
    ensures Predictions(entityType, order[..i + 1], recent, baseline, c, minSampleSize, names, logistic, now) ==
            Predictions(entityType, order[..i], recent, baseline, c, minSampleSize, names, logistic, now) +
            Scored(entityType, order[i], transactions, baselineTxs, c, minSampleSize, names, logistic, now)
  {
    assert order[..i + 1] == order[..i] + [order[i]];
    PredictionsSnoc(entityType, order[..i], order[i], recent, baseline, c, minSampleSize, names, logistic, now);
  }

  /**
   * `analyzeEntities` and `analyzeRoutes`: group the recent and the baseline
   * transactions, skip small groups and score the others, in group order.
   */
  method AnalyzeEntities(entityType: EntityType, recent: seq<Transaction>, baseline: seq<Transaction>, c: Config,
                         minSampleSize: int, names: NameTables, logistic: real -> real, now: int)
    returns (predictions: seq<FailureProbability>)
    requires ValidNormalization(c.normalization)
    ensures predictions == Predictions(entityType, KeysOf(recent, KeyFn(entityType)), recent, baseline, c,
                                       minSampleSize, names, logistic, now)
  {
    var key := KeyFn(entityType);
    var order, groups := GroupBy(recent, key);
    var _, baselineGroups := GroupBy(baseline, key);
    predictions := [];
    var i := 0;
    while i < |order|
      invariant 0 <= i <= |order|
      invariant predictions == Predictions(entityType, order[..i], recent, baseline, c, minSampleSize, names, logistic, now)
    {
      var k := order[i];
      var transactions := groups[k];
      var baselineTxs: seq<Transaction> := [];
      if k in baselineGroups {
        baselineTxs := baselineGroups[k];
      } else {
        MembersOfAbsentKey(baseline, key, k);
      }
      var scored := ScoreGroup(entityType, k, transactions, baselineTxs, c, minSampleSize, names, logistic, now);
      AnalyzeStep(entityType, order, i, recent, baseline, transactions, baselineTxs, c, minSampleSize, names, logistic, now);
      predictions := predictions + scored;
      i := i + 1;
    }
    assert order[..|order|] == order;
  }

  // ---------------------------------------------------------------- summary

  function CountLevel(ps: seq<FailureProbability>, l: RiskLevel): nat
    decreases |ps|
  {
    if |ps| == 0 then 0
    else CountLevel(ps[..|ps| - 1], l) + (if ps[|ps| - 1].risk_level == l then 1 else 0)
  }

  lemma {:induction false} LevelCountsAddUp(ps: seq<FailureProbability>)
    ensures CountLevel(ps, CriticalRisk) + CountLevel(ps, HighRisk) + CountLevel(ps, MediumRisk) + CountLevel(ps, LowRisk) == |ps|
    decreases |ps|
  {
    if |ps| > 0 {
      LevelCountsAddUp(ps[..|ps| - 1]);
    }
  }

  function Probabilities(ps: seq<FailureProbability>): (r: seq<real>)
    ensures |r| == |ps| && forall i :: 0 <= i < |ps| ==> r[i] == ps[i].probability
  {
    seq(|ps|, i requires 0 <= i < |ps| => ps[i].probability)
  }

  function MeanProbability(ps: seq<FailureProbability>): real
  {
    if |ps| > 0 then Sum(Probabilities(ps)) / |ps| as real else 0.0
  }

  datatype PredictionSummary = PredictionSummary(
    total_entities_analyzed: nat,
    high_risk_count: nat,
    medium_risk_count: nat,
    low_risk_count: nat,
    predictions: seq<FailureProbability>,
    global_health_score: int,
    timestamp: int)

  function CalculateSummary(ps: seq<FailureProbability>, now: int): (s: PredictionSummary)
    ensures s.predictions == ps && s.total_entities_analyzed == |ps| && s.timestamp == now
    ensures s.high_risk_count + s.medium_risk_count + s.low_risk_count == s.total_entities_analyzed
    ensures s.high_risk_count == CountLevel(ps, CriticalRisk) + CountLevel(ps, HighRisk)
    ensures s.medium_risk_count == CountLevel(ps, MediumRisk) && s.low_risk_count == CountLevel(ps, LowRisk)
    ensures |ps| == 0 ==> s.global_health_score == 100
  {
    LevelCountsAddUp(ps);
    PredictionSummary(|ps|, CountLevel(ps, CriticalRisk) + CountLevel(ps, HighRisk), CountLevel(ps, MediumRisk),
                      CountLevel(ps, LowRisk), ps, Round((1.0 - MeanProbability(ps)) * 100.0), now)
  }

  /** With probabilities in [0, 1] the health score is a percentage. */
  lemma HealthScoreIsPercentage(ps: seq<FailureProbability>, now: int)
    requires forall i :: 0 <= i < |ps| ==> 0.0 <= ps[i].probability <= 1.0
    ensures 0 <= CalculateSummary(ps, now).global_health_score <= 100
  {
    if |ps| > 0 {
      var n := |ps| as real;
      SumBounds(Probabilities(ps), 0.0, 1.0);
      DivMonotone(0.0, Sum(Probabilities(ps)), n);
      DivMonotone(Sum(Probabilities(ps)), n, n);
    }
  }

  /** Two predictions at 0.2 and 0.8 average to 0.5, a health score of 50. */
  lemma HealthScoreExample(p1: FailureProbability, p2: FailureProbability, now: int)
    requires p1.probability == 0.2 && p2.probability == 0.8
    ensures CalculateSummary([p1, p2], now).global_health_score == 50
  {
    var ps := [p1, p2];
    assert Probabilities(ps) == [0.2, 0.8];
    assert [0.2, 0.8][..1] == [0.2];
    assert Sum(Probabilities(ps)) == 1.0;
    assert MeanProbability(ps) == 0.5;
  }

  // ---------------------------------------------------------------- automatic alerts

  datatype AutoAlert = AutoAlert(severity: AlertSeverity, merchant_id: Option<string>, entity_type: EntityType, entity_id: string)

  predicate IsHighRisk(p: FailureProbability)
  {
    p.risk_level == CriticalRisk || p.risk_level == HighRisk
  }

  /** The merchant an automatic alert is filed under. */
  function AlertMerchantId(p: FailureProbability): Option<string>
  {
    if p.entity_type == MerchantEntity then Some(p.entity_id)
    else if p.entity_type == RouteEntity then Some(Split(p.entity_id, '|')[0])
    else None
  }

  function ToAutoAlert(p: FailureProbability): AutoAlert
  {
    AutoAlert(if p.risk_level == CriticalRisk then SeverityCritical else SeverityWarning,
              AlertMerchantId(p), p.entity_type, p.entity_id)
  }

  /** One alert per high or critical prediction, in prediction order. */
  function AutoAlerts(ps: seq<FailureProbability>): (alerts: seq<AutoAlert>)
    ensures |alerts| == Count(ps, IsHighRisk)
    ensures forall i :: 0 <= i < |alerts| ==> alerts[i] == ToAutoAlert(Filter(ps, IsHighRisk)[i])
  {
    var hs := Filter(ps, IsHighRisk);
    seq(|hs|, i requires 0 <= i < |hs| => ToAutoAlert(hs[i]))
  }

  /** There are as many automatic alerts as critical and high predictions together. */
  lemma {:induction false} AutoAlertCount(ps: seq<FailureProbability>)
    ensures |AutoAlerts(ps)| == CountLevel(ps, CriticalRisk) + CountLevel(ps, HighRisk)
    decreases |ps|
  {
    if |ps| > 0 {
      var init, last := ps[..|ps| - 1], ps[|ps| - 1];
      AutoAlertCount(init);
      assert ps == init + [last];
      FilterAppend(init, [last], IsHighRisk);
    }
  }

  /** Every high or critical prediction gets its alert, and every alert belongs to one. */
  lemma AutoAlertsCoverHighRisk(ps: seq<FailureProbability>, p: FailureProbability)
    ensures p in ps && IsHighRisk(p) ==> ToAutoAlert(p) in AutoAlerts(ps)
    ensures forall i :: 0 <= i < |AutoAlerts(ps)| ==>
              Filter(ps, IsHighRisk)[i] in ps && IsHighRisk(Filter(ps, IsHighRisk)[i])
  {
    var hs := Filter(ps, IsHighRisk);
    FilterMembers(ps, IsHighRisk);
    if p in ps && IsHighRisk(p) {
      var j :| 0 <= j < |ps| && ps[j] == p;
      var k :| 0 <= k < |hs| && hs[k] == p;
      assert AutoAlerts(ps)[k] == ToAutoAlert(p);
    }
  }

  /** `generateAutoAlerts`: one `alertService.create` per high-risk prediction. */
  method GenerateAutoAlerts(ps: seq<FailureProbability>) returns (alerts: seq<AutoAlert>)
    ensures alerts == AutoAlerts(ps)
  {
    var highRisk := Filter(ps, IsHighRisk);
    alerts := [];
    for i := 0 to |highRisk|
      invariant |alerts| == i
      invariant forall j :: 0 <= j < i ==> alerts[j] == ToAutoAlert(highRisk[j])
    {
      alerts := alerts + [ToAutoAlert(highRisk[i])];
    }
  }

  /** A critical prediction becomes a CRITICAL alert, a high one a WARNING. */
  lemma AutoAlertSeverity(p: FailureProbability)
    requires IsHighRisk(p)
    ensures ToAutoAlert(p).severity == SeverityCritical <==> p.risk_level == CriticalRisk
    ensures ToAutoAlert(p).severity == SeverityWarning <==> p.risk_level == HighRisk
  {
  }

  /** A route alert is filed under the merchant of the route. */
  lemma RouteAlertMerchant(p: FailureProbability, tx: Transaction)
    requires p.entity_type == RouteEntity && p.entity_id == RouteKey(tx) && NoSeparatorInIds(tx)
    ensures AlertMerchantId(p) == Some(tx.merchant_id)
  {
    RouteKeySplits(tx);
  }

  // ---------------------------------------------------------------- the query

  datatype PredictionQuery = PredictionQuery(
    merchant_id: Option<string>,
    provider_id: Option<string>,
    method_id: Option<string>,
    country_code: Option<string>,
    time_window_minutes: Option<int>,
    baseline_window_hours: Option<int>,
    min_sample_size: Option<int>,
    include_low_risk: bool,
    entity_type: Option<EntityType>)

  /** `x || d` for a number: an absent value and 0 both give the default. */
  function OrDefault(o: Option<int>, d: int): int
  {
    if o.None? || o.value == 0 then d else o.value
  }

  /** A filter applies when its value is a non-empty string. */
  predicate FilterPasses(filter: Option<string>, value: string)
  {
    filter.None? || filter.value == "" || filter.value == value
  }

  predicate InQuery(q: PredictionQuery, start: int, tx: Transaction)
  {
    tx.date >= start && FilterPasses(q.merchant_id, tx.merchant_id) && FilterPasses(q.provider_id, tx.provider_id) &&
    FilterPasses(q.method_id, tx.method_id) && FilterPasses(q.country_code, tx.country_code)
  }

  /** `getFilteredTransactions`: `date >= start` plus the optional equality filters. */
  function FilteredTransactions(txs: seq<Transaction>, q: PredictionQuery, start: int): seq<Transaction>
  {
    Filter(txs, tx => InQuery(q, start, tx))
  }

  const MINUTE_MS: int := 60 * 1000
  const HOUR_MS: int := 60 * 60 * 1000

  function RecentStart(q: PredictionQuery, now: int): int
  {
    now - OrDefault(q.time_window_minutes, 60) * MINUTE_MS
  }

  function BaselineStart(q: PredictionQuery, now: int): int
  {
    now - OrDefault(q.baseline_window_hours, 168) * HOUR_MS
  }

  /** The baseline fetch has no upper bound, so it contains every recent transaction of a longer baseline. */
  lemma BaselineContainsRecent(txs: seq<Transaction>, q: PredictionQuery, now: int, tx: Transaction)
    requires BaselineStart(q, now) <= RecentStart(q, now)
    requires tx in FilteredTransactions(txs, q, RecentStart(q, now))
    ensures tx in FilteredTransactions(txs, q, BaselineStart(q, now))
  {
    FilterMembers(txs, tx => InQuery(q, RecentStart(q, now), tx));
    FilterMembers(txs, tx => InQuery(q, BaselineStart(q, now), tx));
    var i :| 0 <= i < |txs| && txs[i] == tx;
  }

  function EntityTypeOf(q: PredictionQuery): EntityType
  {
    OrElse(q.entity_type, RouteEntity)
  }

  /** All predictions of a query before the low-risk filter, in group order. */
  function RawPredictions(txs: seq<Transaction>, q: PredictionQuery, c: Config, names: NameTables,
                          logistic: real -> real, now: int): seq<FailureProbability>
    requires ValidNormalization(c.normalization)
  {
    var recent := FilteredTransactions(txs, q, RecentStart(q, now));
    var et := EntityTypeOf(q);
    Predictions(et, KeysOf(recent, KeyFn(et)), recent, FilteredTransactions(txs, q, BaselineStart(q, now)),
                c, OrDefault(q.min_sample_size, 1), names, logistic, now)
  }

  predicate NotLow(p: FailureProbability)
  {
    p.risk_level != LowRisk
  }

  function NegProbability(p: FailureProbability): real
  {
    -p.probability
  }

  predicate SortedByProbabilityDesc(ps: seq<FailureProbability>)
  {
    forall i, j :: 0 <= i < j < |ps| ==> ps[i].probability >= ps[j].probability
  }

  lemma SortedDescending(ps: seq<FailureProbability>)
    requires SortedBy(ps, NegProbability)
    ensures SortedByProbabilityDesc(ps)
  {
    forall i, j | 0 <= i < j < |ps|
      ensures ps[i].probability >= ps[j].probability
    {
      assert NegProbability(ps[i]) <= NegProbability(ps[j]);
    }
  }

  /** Drop low risk unless asked for, then sort by descending probability. */
  function SelectAndSort(ps: seq<FailureProbability>, includeLowRisk: bool): (r: seq<FailureProbability>)
    ensures multiset(r) == multiset(if includeLowRisk then ps else Filter(ps, NotLow))
    ensures SortedByProbabilityDesc(r)
    ensures forall i :: 0 <= i < |r| ==> r[i] in ps
    ensures !includeLowRisk ==> forall i :: 0 <= i < |r| ==> r[i].risk_level != LowRisk
  {
    var filtered := if includeLowRisk then ps else Filter(ps, NotLow);
    var sorted := SortBy(filtered, NegProbability);
    SortBySorted(filtered, NegProbability);
    SortedDescending(sorted);
    forall i | 0 <= i < |sorted|
      ensures sorted[i] in ps && (!includeLowRisk ==> sorted[i].risk_level != LowRisk)
    {
      SortByMembers(filtered, NegProbability, sorted[i]);
      if !includeLowRisk {
        FilterMember(ps, NotLow, sorted[i]);
      }
    }
    sorted
  }

  /** The predictions of a query are of the requested kind and come from large enough groups. */
  lemma QueryPredictions(txs: seq<Transaction>, q: PredictionQuery, c: Config, names: NameTables,
                         logistic: real -> real, now: int)
    requires ValidNormalization(c.normalization)
    ensures var ps := SelectAndSort(RawPredictions(txs, q, c, names, logistic, now), q.include_low_risk);
            forall i :: 0 <= i < |ps| ==>
              ps[i].entity_type == EntityTypeOf(q) && ps[i].sample_size >= OrDefault(q.min_sample_size, 1)
  {
    var recent := FilteredTransactions(txs, q, RecentStart(q, now));
    var et := EntityTypeOf(q);
    PredictionsRespectMinSample(et, KeysOf(recent, KeyFn(et)), recent, FilteredTransactions(txs, q, BaselineStart(q, now)),
                                c, OrDefault(q.min_sample_size, 1), names, logistic, now);
  }

  /**
   * `getPredictions`: score the requested kind of entity, drop low risk unless
   * asked, sort by descending probability, file the automatic alerts and summarise.
   */
  method GetPredictions(txs: seq<Transaction>, q: PredictionQuery, config: Option<ConfigPatch>, names: NameTables,
                        logistic: real -> real, now: int)
    returns (summary: PredictionSummary, alerts: seq<AutoAlert>)
    requires ValidNormalization(MergeConfig(config).normalization)
    ensures summary.predictions == SelectAndSort(RawPredictions(txs, q, MergeConfig(config), names, logistic, now), q.include_low_risk)
    ensures summary == CalculateSummary(summary.predictions, now)
    ensures alerts == AutoAlerts(summary.predictions)
  {
    var c := MergeConfig(config);
    var minSampleSize := OrDefault(q.min_sample_size, 1);
    var recent := FilteredTransactions(txs, q, RecentStart(q, now));
    var baseline := FilteredTransactions(txs, q, BaselineStart(q, now));
    var entityType := EntityTypeOf(q);
    var predictions := AnalyzeEntities(entityType, recent, baseline, c, minSampleSize, names, logistic, now);
    var sorted := SelectAndSort(predictions, q.include_low_risk);
    alerts := GenerateAutoAlerts(sorted);
    summary := CalculateSummary(sorted, now);
  }

  // ---------------------------------------------------------------- top 3

  datatype TopRiskyEntity = TopRiskyEntity(
    rank: nat,
    entity_type: EntityType,
    entity_id: string,
    entity_name: string,
    probability: real,
    risk_level: RiskLevel,
    error_rate: real,
    approval_rate: real,
    latency: real,
    trend: TrendDirection,
    sample_size: nat,
    timestamp: int)

  /** `signals.find(s => s.name === name)?.value || 0`. */
  function SignalValueOrZero(signals: seq<Signal>, name: SignalName): real
    decreases |signals|
  {
    if |signals| == 0 then 0.0
    else if signals[0].name == name then signals[0].value
    else SignalValueOrZero(signals[1..], name)
  }

  function ToTopRiskyEntity(p: FailureProbability, rank: nat): TopRiskyEntity
  {
    TopRiskyEntity(rank, p.entity_type, p.entity_id, p.entity_name, p.probability, p.risk_level,
                   SignalValueOrZero(p.signals, ErrorRateSignal), SignalValueOrZero(p.signals, ApprovalRateSignal),
                   SignalValueOrZero(p.signals, LatencySignal), p.trend.direction, p.sample_size, p.timestamp)
  }

  /** The three most probable predictions: sort descending, `slice(0, 3)`. */
  function TopPredictions(ps: seq<FailureProbability>): (top: seq<FailureProbability>)
    ensures |top| == if |ps| < 3 then |ps| else 3
    ensures SortedByProbabilityDesc(top)
    ensures forall i :: 0 <= i < |top| ==> top[i] in ps
  {
    var sorted := SortBy(ps, NegProbability);
    SortBySorted(ps, NegProbability);
    SortedDescending(sorted);
    var top := sorted[..if |ps| < 3 then |ps| else 3];
    forall i | 0 <= i < |top|
      ensures top[i] in ps
    {
      assert top[i] in multiset(sorted);
    }
    top
  }

  /** Nothing left out of the top three is more probable than any prediction in it. */
  lemma TopPredictionsAreHighest(ps: seq<FailureProbability>, x: FailureProbability)
    requires x in ps
    ensures var top := TopPredictions(ps);
            x in top || forall i :: 0 <= i < |top| ==> x.probability <= top[i].probability
  {
    var sorted := SortBy(ps, NegProbability);
    SortBySorted(ps, NegProbability);
    SortedDescending(sorted);
    SortByMembers(ps, NegProbability, x);
    var j :| 0 <= j < |sorted| && sorted[j] == x;
    var top := TopPredictions(ps);
    assert top == sorted[..|top|];
    if j >= |top| {
      forall i | 0 <= i < |top|
        ensures x.probability <= top[i].probability
      {
        assert top[i] == sorted[i];
      }
    }
  }

  function Ranked(top: seq<FailureProbability>): (r: seq<TopRiskyEntity>)
    ensures |r| == |top|
    ensures forall i :: 0 <= i < |r| ==> r[i] == ToTopRiskyEntity(top[i], i + 1)
  {
    seq(|top|, i requires 0 <= i < |top| => ToTopRiskyEntity(top[i], i + 1))
  }

  /** The query the top-3 views send: only the windows and the sample size are taken over. */
  function TopQuery(entityType: EntityType, q: PredictionQuery): PredictionQuery
  {
    PredictionQuery(None, None, None, None, Some(OrDefault(q.time_window_minutes, 60)),
                    Some(OrDefault(q.baseline_window_hours, 168)), Some(OrDefault(q.min_sample_size, 1)), false, Some(entityType))
  }

  /** The predictions `getPredictions` returns for a query under the default configuration. */
  function QueryView(txs: seq<Transaction>, q: PredictionQuery, names: NameTables, logistic: real -> real, now: int): seq<FailureProbability>
  {
    SelectAndSort(RawPredictions(txs, q, DefaultConfig, names, logistic, now), q.include_low_risk)
  }

  /** `getTop3ByEntityType`: the three most probable non-low predictions of one kind, ranked from 1. */
  method Top3ByEntityType(txs: seq<Transaction>, entityType: EntityType, q: PredictionQuery, names: NameTables,
                          logistic: real -> real, now: int)
    returns (top: seq<TopRiskyEntity>, alerts: seq<AutoAlert>)
    ensures top == Ranked(TopPredictions(QueryView(txs, TopQuery(entityType, q), names, logistic, now)))
    ensures alerts == KindAlerts(txs, entityType, q, names, logistic, now)
    ensures |top| <= 3
    ensures forall i :: 0 <= i < |top| ==> top[i].rank == i + 1 && top[i].entity_type == entityType && top[i].risk_level != LowRisk
    ensures forall i, j :: 0 <= i < j < |top| ==> top[i].probability >= top[j].probability
  {
    var ps;
    ps, alerts := KindPredictions(txs, entityType, q, names, logistic, now);
    var best := TopPredictions(ps);
    QueryPredictions(txs, TopQuery(entityType, q), DefaultConfig, names, logistic, now);
    top := Ranked(best);
  }

  /** The alerts the `getPredictions` call of a top-3 view creates for one kind of entity. */
  function KindAlerts(txs: seq<Transaction>, entityType: EntityType, q: PredictionQuery, names: NameTables,
                      logistic: real -> real, now: int): seq<AutoAlert>
  {
    AutoAlerts(QueryView(txs, TopQuery(entityType, q), names, logistic, now))
  }

  /**
   * The `getPredictions` call the top-3 views make for one kind of entity,
   * under the default configuration, with the alerts it creates on the way.
   */
  method KindPredictions(txs: seq<Transaction>, entityType: EntityType, q: PredictionQuery, names: NameTables,
                         logistic: real -> real, now: int)
    returns (ps: seq<FailureProbability>, alerts: seq<AutoAlert>)
    ensures ps == QueryView(txs, TopQuery(entityType, q), names, logistic, now)
    ensures alerts == AutoAlerts(ps)
  {
    var summary;
    summary, alerts := GetPredictions(txs, TopQuery(entityType, q), None, names, logistic, now);
    ps := summary.predictions;
  }

  /** `getOverallTop3`: the merchant, provider and method predictions together, top three of them. */
  method OverallTop3(txs: seq<Transaction>, q: PredictionQuery, names: NameTables, logistic: real -> real, now: int)
    returns (top: seq<TopRiskyEntity>, alerts: seq<AutoAlert>)
    ensures alerts == KindAlerts(txs, MerchantEntity, q, names, logistic, now) +
                      KindAlerts(txs, ProviderEntity, q, names, logistic, now) +
                      KindAlerts(txs, MethodEntity, q, names, logistic, now)
    ensures top == Ranked(TopPredictions(QueryView(txs, TopQuery(MerchantEntity, q), names, logistic, now) +
                                         QueryView(txs, TopQuery(ProviderEntity, q), names, logistic, now) +
                                         QueryView(txs, TopQuery(MethodEntity, q), names, logistic, now)))
    ensures |top| <= 3
    ensures forall i :: 0 <= i < |top| ==> top[i].rank == i + 1 && top[i].risk_level != LowRisk
    ensures forall i :: 0 <= i < |top| ==> top[i].entity_type != CountryEntity && top[i].entity_type != RouteEntity
    ensures forall i, j :: 0 <= i < j < |top| ==> top[i].probability >= top[j].probability
  {
    var merchants, merchantAlerts := KindPredictions(txs, MerchantEntity, q, names, logistic, now);
    var providers, providerAlerts := KindPredictions(txs, ProviderEntity, q, names, logistic, now);
    var methods, methodAlerts := KindPredictions(txs, MethodEntity, q, names, logistic, now);
    alerts := merchantAlerts + providerAlerts + methodAlerts;
    var best := TopPredictions(merchants + providers + methods);
    OverallKinds(txs, q, names, logistic, now);
    RankedInOrder(best);
    top := Ranked(best);
  }

  /** Ranking numbers the predictions from 1 and keeps their order, their kind and their level. */
  lemma RankedInOrder(top: seq<FailureProbability>)
    requires SortedByProbabilityDesc(top)
    ensures var r := Ranked(top);
            (forall i :: 0 <= i < |r| ==> r[i].rank == i + 1 && r[i].entity_type == top[i].entity_type &&
                                          r[i].risk_level == top[i].risk_level) &&
            forall i, j :: 0 <= i < j < |r| ==> r[i].probability >= r[j].probability
  {
  }

  lemma OverallKinds(txs: seq<Transaction>, q: PredictionQuery, names: NameTables, logistic: real -> real, now: int)
    ensures var top := TopPredictions(QueryView(txs, TopQuery(MerchantEntity, q), names, logistic, now) +
                                      QueryView(txs, TopQuery(ProviderEntity, q), names, logistic, now) +
                                      QueryView(txs, TopQuery(MethodEntity, q), names, logistic, now));
            forall i :: 0 <= i < |top| ==>
              top[i].entity_type != CountryEntity && top[i].entity_type != RouteEntity && top[i].risk_level != LowRisk
  {
    QueryPredictions(txs, TopQuery(MerchantEntity, q), DefaultConfig, names, logistic, now);
    QueryPredictions(txs, TopQuery(ProviderEntity, q), DefaultConfig, names, logistic, now);
    QueryPredictions(txs, TopQuery(MethodEntity, q), DefaultConfig, names, logistic, now);
    TopOfKinds(QueryView(txs, TopQuery(MerchantEntity, q), names, logistic, now),
               QueryView(txs, TopQuery(ProviderEntity, q), names, logistic, now),
               QueryView(txs, TopQuery(MethodEntity, q), names, logistic, now));
  }

  lemma TopOfKinds(ms: seq<FailureProbability>, ps: seq<FailureProbability>, ts: seq<FailureProbability>)
    requires forall i :: 0 <= i < |ms| ==> ms[i].entity_type == MerchantEntity && ms[i].risk_level != LowRisk
    requires forall i :: 0 <= i < |ps| ==> ps[i].entity_type == ProviderEntity && ps[i].risk_level != LowRisk
    requires forall i :: 0 <= i < |ts| ==> ts[i].entity_type == MethodEntity && ts[i].risk_level != LowRisk
    ensures var top := TopPredictions(ms + ps + ts);
            forall i :: 0 <= i < |top| ==>
              top[i].entity_type != CountryEntity && top[i].entity_type != RouteEntity && top[i].risk_level != LowRisk
  {
    var all := ms + ps + ts;
    var top := TopPredictions(all);
    forall i | 0 <= i < |top|
      ensures top[i].entity_type != CountryEntity && top[i].entity_type != RouteEntity && top[i].risk_level != LowRisk
    {
      var k :| 0 <= k < |all| && all[k] == top[i];
      if k < |ms| {
      } else if k < |ms| + |ps| {
        assert all[k] == ps[k - |ms|];
      } else {
        assert all[k] == ts[k - |ms| - |ps|];
      }
    }
  }

  datatype Top3Summary = Top3Summary(top_merchants: seq<TopRiskyEntity>, top_providers: seq<TopRiskyEntity>,
                                     top_methods: seq<TopRiskyEntity>, overall_top_3: seq<TopRiskyEntity>, timestamp: int)

  /**
   * `getTop3Summary`: the three per-kind views and the overall view. Each
   * view runs its own prediction queries, so every high or critical
   * prediction is filed as an alert twice: once by its kind's view and once
   * by the overall view.
   */
  method GetTop3Summary(txs: seq<Transaction>, q: PredictionQuery, names: NameTables, logistic: real -> real, now: int)
    returns (summary: Top3Summary, alerts: seq<AutoAlert>)
    ensures summary.top_merchants == Ranked(TopPredictions(QueryView(txs, TopQuery(MerchantEntity, q), names, logistic, now)))
    ensures summary.top_providers == Ranked(TopPredictions(QueryView(txs, TopQuery(ProviderEntity, q), names, logistic, now)))
    ensures summary.top_methods == Ranked(TopPredictions(QueryView(txs, TopQuery(MethodEntity, q), names, logistic, now)))
    ensures var kinds := KindAlerts(txs, MerchantEntity, q, names, logistic, now) +
                         KindAlerts(txs, ProviderEntity, q, names, logistic, now) +
                         KindAlerts(txs, MethodEntity, q, names, logistic, now);
            alerts == kinds + kinds
    ensures |summary.top_merchants| <= 3 && |summary.top_providers| <= 3 && |summary.top_methods| <= 3
    ensures summary.overall_top_3 ==
            Ranked(TopPredictions(QueryView(txs, TopQuery(MerchantEntity, q), names, logistic, now) +
                                  QueryView(txs, TopQuery(ProviderEntity, q), names, logistic, now) +
                                  QueryView(txs, TopQuery(MethodEntity, q), names, logistic, now)))
    ensures |summary.overall_top_3| <= 3 && summary.timestamp == now
    ensures forall i :: 0 <= i < |summary.top_merchants| ==> summary.top_merchants[i].entity_type == MerchantEntity
    ensures forall i :: 0 <= i < |summary.top_providers| ==> summary.top_providers[i].entity_type == ProviderEntity
    ensures forall i :: 0 <= i < |summary.top_methods| ==> summary.top_methods[i].entity_type == MethodEntity
  {
    var merchants, merchantAlerts := Top3ByEntityType(txs, MerchantEntity, q, names, logistic, now);
    var providers, providerAlerts := Top3ByEntityType(txs, ProviderEntity, q, names, logistic, now);
    var methods, methodAlerts := Top3ByEntityType(txs, MethodEntity, q, names, logistic, now);
    var overall, overallAlerts := OverallTop3(txs, q, names, logistic, now);
    alerts := merchantAlerts + providerAlerts + methodAlerts + overallAlerts;
    summary := Top3Summary(merchants, providers, methods, overall, now);
  }
}
