/**
 * The metric anomaly rules of `MetricService`: four threshold checks on a
 * stored metric, each producing at most one alert, created in rule order.
 */
module MetricAnalysis {
  import opened Wrappers
  import opened Seqs
  import opened Entities

  /** `ANOMALY_THRESHOLDS`. */
  const SCORE_THRESHOLD: real := 0.8
  const ERROR_RATE_THRESHOLD: real := 0.1
  const APPROVAL_RATE_MIN: real := 0.7
  const P95_LATENCY_THRESHOLD: real := 5000.0
  /** The escalation points to CRITICAL inside the error, approval and latency rules. */
  const ERROR_RATE_CRITICAL: real := 0.2
  const APPROVAL_RATE_CRITICAL: real := 0.5
  const P95_LATENCY_CRITICAL: real := 10000.0

  /** A stored metric; every analysed column is nullable. */
  datatype Metric = Metric(
    id: string,
    merchant_id: Option<string>,
    score_anomalia: Option<real>,
    error_rate: Option<real>,
    approval_rate: Option<real>,
    p95_latency: Option<real>)

  /** The four checks, in the order the analysis runs them. */
  datatype Rule = AnomalyRule | ErrorRule | ApprovalRule | LatencyRule

  function RuleIndex(r: Rule): nat
  {
    match r
    case AnomalyRule => 0
    case ErrorRule => 1
    case ApprovalRule => 2
    case LatencyRule => 3
  }

  /** The fixed title each rule gives its alert. */
  function RuleTitle(r: Rule): string
  {
    match r
    case AnomalyRule => "Anomalía detectada en métrica"
    case ErrorRule => "Tasa de error elevada"
    case ApprovalRule => "Tasa de aprobación baja"
    case LatencyRule => "Latencia elevada"
  }

  /** `DetectedAlert`, tagged with the rule that raised it. */
  datatype DetectedAlert = DetectedAlert(rule: Rule, severity: AlertSeverity)

  function Severity(critical: bool): AlertSeverity
  {
    if critical then SeverityCritical else SeverityWarning
  }

  /** The alert one rule raises on `m`: empty, or exactly one alert. */
  function Check(m: Metric, r: Rule): seq<DetectedAlert>
  {
    match r
    case AnomalyRule =>
      if m.score_anomalia.Some? && m.score_anomalia.value >= SCORE_THRESHOLD
      then [DetectedAlert(AnomalyRule, SeverityWarning)] else []
    case ErrorRule =>
      if m.error_rate.Some? && m.error_rate.value >= ERROR_RATE_THRESHOLD
      then [DetectedAlert(ErrorRule, Severity(m.error_rate.value >= ERROR_RATE_CRITICAL))] else []
    case ApprovalRule =>
      if m.approval_rate.Some? && m.approval_rate.value < APPROVAL_RATE_MIN
      then [DetectedAlert(ApprovalRule, Severity(m.approval_rate.value < APPROVAL_RATE_CRITICAL))] else []
    case LatencyRule =>
      if m.p95_latency.Some? && m.p95_latency.value >= P95_LATENCY_THRESHOLD
      then [DetectedAlert(LatencyRule, Severity(m.p95_latency.value >= P95_LATENCY_CRITICAL))] else []
  }

  /** The alerts `analyzeMetric` accumulates, as a specification: the rules in order. */
  function DetectedAlerts(m: Metric): seq<DetectedAlert>
  {
    Check(m, AnomalyRule) + Check(m, ErrorRule) + Check(m, ApprovalRule) + Check(m, LatencyRule)
  }

  /** The `alertsService.create` argument for one detected alert. */
  function AlertRequest(m: Metric, a: DetectedAlert): (d: CreateAlertDto)
    ensures d.metric_id == Some(m.id) && d.merchant_id == m.merchant_id
    ensures d.severity == a.severity && d.state.None?
  {
    CreateAlertDto(Some(m.id), a.severity, None, RuleTitle(a.rule), None, m.merchant_id)
  }

  /**
   * `analyzeMetric`: pushes one alert per rule that fires, then creates every
   * alert in order; `requests` are the `create` calls it makes.
   */
  method AnalyzeMetric(m: Metric) returns (requests: seq<CreateAlertDto>)
    ensures |requests| == |DetectedAlerts(m)|
    ensures forall i :: 0 <= i < |requests| ==> requests[i] == AlertRequest(m, DetectedAlerts(m)[i])
  {
    var alerts := CollectAlerts(m);
    requests := [];
    for i := 0 to |alerts|
      invariant |requests| == i
      invariant forall j :: 0 <= j < i ==> requests[j] == AlertRequest(m, alerts[j])
    {
      requests := requests + [AlertRequest(m, alerts[i])];
    }
  }

  /** The four rule checks of `analyzeMetric`, each pushing at most one alert. */
  method CollectAlerts(m: Metric) returns (alerts: seq<DetectedAlert>)
    ensures alerts == DetectedAlerts(m)
  {
    alerts := [];
    if m.score_anomalia.Some? && m.score_anomalia.value >= SCORE_THRESHOLD {
      alerts := alerts + [DetectedAlert(AnomalyRule, SeverityWarning)];
    }
    assert alerts == Check(m, AnomalyRule);
    if m.error_rate.Some? && m.error_rate.value >= ERROR_RATE_THRESHOLD {
      alerts := alerts + [DetectedAlert(ErrorRule, if m.error_rate.value >= ERROR_RATE_CRITICAL then SeverityCritical else SeverityWarning)];
    }
    assert alerts == Check(m, AnomalyRule) + Check(m, ErrorRule);
    if m.approval_rate.Some? && m.approval_rate.value < APPROVAL_RATE_MIN {
      alerts := alerts + [DetectedAlert(ApprovalRule, if m.approval_rate.value < APPROVAL_RATE_CRITICAL then SeverityCritical else SeverityWarning)];
    }
    assert alerts == Check(m, AnomalyRule) + Check(m, ErrorRule) + Check(m, ApprovalRule);
    if m.p95_latency.Some? && m.p95_latency.value >= P95_LATENCY_THRESHOLD {
      alerts := alerts + [DetectedAlert(LatencyRule, if m.p95_latency.value >= P95_LATENCY_CRITICAL then SeverityCritical else SeverityWarning)];
    }
  }

  /** At most four alerts, one per rule, in rule order. */
  lemma AlertsInRuleOrder(m: Metric)
    ensures |DetectedAlerts(m)| <= 4
    ensures forall i, j :: 0 <= i < j < |DetectedAlerts(m)| ==>
      RuleIndex(DetectedAlerts(m)[i].rule) < RuleIndex(DetectedAlerts(m)[j].rule)
  {
  }

  /** Whether some alert of rule `r` is among `alerts`. */
  predicate Raised(alerts: seq<DetectedAlert>, r: Rule)
  {
    exists i :: 0 <= i < |alerts| && alerts[i].rule == r
  }

  /** The severity of every alert of rule `r` among `alerts`. */
  predicate RaisedWith(alerts: seq<DetectedAlert>, r: Rule, s: AlertSeverity)
  {
    forall i :: 0 <= i < |alerts| && alerts[i].rule == r ==> alerts[i].severity == s
  }

  /** A high anomaly score raises one WARNING. */
  lemma AnomalyRuleFires(m: Metric)
    ensures Raised(DetectedAlerts(m), AnomalyRule) <==> (m.score_anomalia.Some? && m.score_anomalia.value >= 0.8)
    ensures RaisedWith(DetectedAlerts(m), AnomalyRule, SeverityWarning)
  {
    if m.score_anomalia.Some? && m.score_anomalia.value >= 0.8 {
      assert DetectedAlerts(m)[0].rule == AnomalyRule;
    }
  }

  /** An error rate of at least 10% raises an alert, CRITICAL exactly from 20% on. */
  lemma ErrorRuleFires(m: Metric)
    ensures Raised(DetectedAlerts(m), ErrorRule) <==> (m.error_rate.Some? && m.error_rate.value >= 0.1)
    ensures m.error_rate.Some? && m.error_rate.value >= 0.2 ==> RaisedWith(DetectedAlerts(m), ErrorRule, SeverityCritical)
    ensures m.error_rate.Some? && m.error_rate.value < 0.2 ==> RaisedWith(DetectedAlerts(m), ErrorRule, SeverityWarning)
  {
    var a := DetectedAlerts(m);
    if m.error_rate.Some? && m.error_rate.value >= 0.1 {
      var k := if m.score_anomalia.Some? && m.score_anomalia.value >= SCORE_THRESHOLD then 1 else 0;
      assert a[k].rule == ErrorRule;
    }
  }

  /** An approval rate under 70% raises an alert, CRITICAL exactly under 50%. */
  lemma ApprovalRuleFires(m: Metric)
    ensures Raised(DetectedAlerts(m), ApprovalRule) <==> (m.approval_rate.Some? && m.approval_rate.value < 0.7)
    ensures m.approval_rate.Some? && m.approval_rate.value < 0.5 ==> RaisedWith(DetectedAlerts(m), ApprovalRule, SeverityCritical)
    ensures m.approval_rate.Some? && m.approval_rate.value >= 0.5 ==> RaisedWith(DetectedAlerts(m), ApprovalRule, SeverityWarning)
  {
    var a := DetectedAlerts(m);
    if m.approval_rate.Some? && m.approval_rate.value < 0.7 {
      var k := (if m.score_anomalia.Some? && m.score_anomalia.value >= SCORE_THRESHOLD then 1 else 0) +
               (if m.error_rate.Some? && m.error_rate.value >= ERROR_RATE_THRESHOLD then 1 else 0);
      assert a[k].rule == ApprovalRule;
    }
  }

  /** A p95 latency of at least 5000 ms raises an alert, CRITICAL exactly from 10000 ms on. */
  lemma LatencyRuleFires(m: Metric)
    ensures Raised(DetectedAlerts(m), LatencyRule) <==> (m.p95_latency.Some? && m.p95_latency.value >= 5000.0)
    ensures m.p95_latency.Some? && m.p95_latency.value >= 10000.0 ==> RaisedWith(DetectedAlerts(m), LatencyRule, SeverityCritical)
    ensures m.p95_latency.Some? && m.p95_latency.value < 10000.0 ==> RaisedWith(DetectedAlerts(m), LatencyRule, SeverityWarning)
  {
    var a := DetectedAlerts(m);
    if m.p95_latency.Some? && m.p95_latency.value >= 5000.0 {
      assert a[|a| - 1].rule == LatencyRule;
    }
  }

  /** A metric with no analysed column set raises nothing. */
  lemma NullMetricIsQuiet(m: Metric)
    requires m.score_anomalia.None? && m.error_rate.None? && m.approval_rate.None? && m.p95_latency.None?
    ensures DetectedAlerts(m) == []
  {
  }

  /** The values of `values` that are not null or undefined, in order. */
  function Present(values: seq<Option<real>>): (r: seq<real>)
    ensures |r| <= |values|
    decreases |values|
  {
    if |values| == 0 then []
    else
      Present(values[..|values| - 1]) +
      (match values[|values| - 1] case Some(v) => [v] case None => [])
  }

  /** Every present value is kept, and nothing else is. */
  lemma {:induction false} PresentMembers(values: seq<Option<real>>)
    ensures forall i :: 0 <= i < |values| && values[i].Some? ==> values[i].value in Present(values)
    ensures forall x :: x in Present(values) <==> Some(x) in values
    decreases |values|
  {
    if |values| > 0 {
      var init := values[..|values| - 1];
      PresentMembers(init);
      assert values == init + [values[|values| - 1]];
    }
  }

  /** `calculateAverage`: the mean of the present values, 0 when there are none. */
  function CalculateAverage(values: seq<Option<real>>): (r: real)
    ensures |Present(values)| == 0 ==> r == 0.0
  {
    var valid := Present(values);
    if |valid| == 0 then 0.0 else Sum(valid) / |valid| as real
  }

  /** The average times the number of present values gives back their sum. */
  lemma AverageTimesCount(values: seq<Option<real>>)
    ensures CalculateAverage(values) * |Present(values)| as real == Sum(Present(values))
  {
  }

  /** The average stays between any bounds of the present values. */
  lemma AverageBounded(values: seq<Option<real>>, lo: real, hi: real)
    requires |Present(values)| > 0
    requires forall i :: 0 <= i < |Present(values)| ==> lo <= Present(values)[i] <= hi
    ensures lo <= CalculateAverage(values) <= hi
  {
    MeanBounded(Present(values), lo, hi);
  }

  /** A null or undefined entry, wherever it sits, does not move the average. */
  lemma {:induction false} PresentSkipsNull(a: seq<Option<real>>, b: seq<Option<real>>)
    ensures Present(a + [None] + b) == Present(a + b)
    decreases |b|
  {
    if |b| == 0 {
      assert a + [None] + b == a + [None];
      assert (a + [None])[..|a|] == a;
      assert a + b == a;
    } else {
      var b' := b[..|b| - 1];
      assert (a + [None] + b)[..|a + [None] + b| - 1] == a + [None] + b';
      assert (a + b)[..|a + b| - 1] == a + b';
      PresentSkipsNull(a, b');
    }
  }

  lemma AverageIgnoresNull(a: seq<Option<real>>, b: seq<Option<real>>)
    ensures CalculateAverage(a + [None] + b) == CalculateAverage(a + b)
  {
    PresentSkipsNull(a, b);
  }
}
