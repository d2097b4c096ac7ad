/**
 * The payment-route health graph: transactions of the current window are
 * grouped by route (merchant, provider, method, country), compared with the
 * window of the same length just before it, and every route, node and edge is
 * classified OK, WARNING or CRITICAL by a prioritised threshold ladder.
 */
module HealthGraph {
  import opened Wrappers
  import opened Seqs
  import opened Strings
  import opened Grouping
  import opened Entities
  import opened RateMetrics
  import FailurePrediction

  datatype NodeStatus = NodeOk | NodeWarning | NodeCritical

  datatype EdgeStatus = EdgeOk | EdgeWarning | EdgeCritical

  /** `QueryHealthGraphDto`; thresholds are optional rates. */
  datatype HealthQuery = HealthQuery(
    merchant_id: Option<string>,
    provider_id: Option<string>,
    method_id: Option<string>,
    country_code: Option<string>,
    time_window_minutes: Option<int>,
    only_issues: bool,
    critical_error_rate: Option<real>,
    warning_error_rate: Option<real>,
    critical_approval_rate: Option<real>,
    warning_approval_rate: Option<real>,
    critical_approval_loss_rate: Option<real>,
    warning_approval_loss_rate: Option<real>)

  datatype StatusThresholds = StatusThresholds(
    critical_error_rate: real,
    warning_error_rate: real,
    critical_approval_rate: real,
    warning_approval_rate: real,
    critical_approval_loss_rate: real,
    warning_approval_loss_rate: real)

  /** `x || d` for a rate: absent and 0 both give the default. */
  function RateOrDefault(o: Option<real>, d: real): (r: real)
    ensures o.None? || o.value == 0.0 ==> r == d
    ensures o.Some? && o.value != 0.0 ==> r == o.value
  {
    if o.None? || o.value == 0.0 then d else o.value
  }

  /** `x || d` for a number of minutes. */
  function MinutesOrDefault(o: Option<int>, d: int): (r: int)
    ensures o.None? || o.value == 0 ==> r == d
    ensures o.Some? && o.value != 0 ==> r == o.value
  {
    if o.None? || o.value == 0 then d else o.value
  }

  /** The thresholds of a query, defaulting to 0.3 / 0.15 / 0.5 / 0.7 / 0.2 / 0.1. */
  function ThresholdsOf(q: HealthQuery): StatusThresholds
  {
    StatusThresholds(RateOrDefault(q.critical_error_rate, 0.3), RateOrDefault(q.warning_error_rate, 0.15),
                     RateOrDefault(q.critical_approval_rate, 0.5), RateOrDefault(q.warning_approval_rate, 0.7),
                     RateOrDefault(q.critical_approval_loss_rate, 0.2), RateOrDefault(q.warning_approval_loss_rate, 0.1))
  }

  const MINUTE_MS: int := 60 * 1000

  function WindowMinutes(q: HealthQuery): int
  {
    MinutesOrDefault(q.time_window_minutes, 60)
  }

  /** An empty query uses the documented defaults. */
  lemma DefaultThresholds(q: HealthQuery)
    requires q.time_window_minutes.None? && q.critical_error_rate.None? && q.warning_error_rate.None?
    requires q.critical_approval_rate.None? && q.warning_approval_rate.None?
    requires q.critical_approval_loss_rate.None? && q.warning_approval_loss_rate.None?
    ensures ThresholdsOf(q) == StatusThresholds(0.3, 0.15, 0.5, 0.7, 0.2, 0.1)
    ensures WindowMinutes(q) == 60
  {
  }

  /** `RouteMetrics`: the reductions of one group plus display names and the comparison with the baseline. */
  datatype RouteMetrics = RouteMetrics(
    approval_rate: real,
    error_rate: real,
    p95_latency: int,
    sample_size: nat,
    merchant_name: string,
    provider_name: string,
    method_name: string,
    country_name: string,
    approval_loss_rate: real,
    baseline_approval_rate: real)

  // ---------------------------------------------------------------- windows

  /** Start of the current window: `now - w` minutes. */
  function CurrentStart(q: HealthQuery, now: int): int
  {
    now - WindowMinutes(q) * MINUTE_MS
  }

  /** Start of the baseline window: `w` minutes before the current one. */
  function BaselineStart(q: HealthQuery, now: int): int
  {
    CurrentStart(q, now) - WindowMinutes(q) * MINUTE_MS
  }

  predicate PassesFilters(q: HealthQuery, tx: Transaction)
  {
    FailurePrediction.FilterPasses(q.merchant_id, tx.merchant_id) && FailurePrediction.FilterPasses(q.provider_id, tx.provider_id) &&
    FailurePrediction.FilterPasses(q.method_id, tx.method_id) && FailurePrediction.FilterPasses(q.country_code, tx.country_code)
  }

  predicate InCurrent(q: HealthQuery, now: int, tx: Transaction)
  {
    tx.date >= CurrentStart(q, now) && PassesFilters(q, tx)
  }

  predicate InBaseline(q: HealthQuery, now: int, tx: Transaction)
  {
    BaselineStart(q, now) <= tx.date < CurrentStart(q, now) && PassesFilters(q, tx)
  }

  function CurrentTransactions(txs: seq<Transaction>, q: HealthQuery, now: int): seq<Transaction>
  {
    Filter(txs, tx => InCurrent(q, now, tx))
  }

  function BaselineTransactions(txs: seq<Transaction>, q: HealthQuery, now: int): seq<Transaction>
  {
    Filter(txs, tx => InBaseline(q, now, tx))
  }

  /** The baseline window ends where the current one starts: no transaction is in both, and every baseline one is older. */
  lemma WindowsDisjoint(txs: seq<Transaction>, q: HealthQuery, now: int)
    ensures forall i :: 0 <= i < |BaselineTransactions(txs, q, now)| ==>
              BaselineTransactions(txs, q, now)[i] !in CurrentTransactions(txs, q, now)
    ensures forall i, j :: 0 <= i < |BaselineTransactions(txs, q, now)| && 0 <= j < |CurrentTransactions(txs, q, now)| ==>
              BaselineTransactions(txs, q, now)[i].date < CurrentTransactions(txs, q, now)[j].date
  {
    FilterMembers(txs, tx => InBaseline(q, now, tx));
    FilterMembers(txs, tx => InCurrent(q, now, tx));
  }

  // ---------------------------------------------------------------- reductions

  /** The baseline comparison: `baseline_approval - approval` when there is a baseline group, else 0. */
  function ApprovalLoss(current: seq<Transaction>, baseline: seq<Transaction>): (loss: real)
    ensures |baseline| == 0 ==> loss == 0.0
    ensures |baseline| > 0 ==> loss == ApprovalRate(baseline) - ApprovalRate(current)
    ensures -1.0 <= loss <= 1.0
  {
    if |baseline| > 0 then ApprovalRate(baseline) - ApprovalRate(current) else 0.0
  }

  /** A route just as good as its baseline loses nothing; a worse one has a positive loss. */
  lemma ApprovalLossSign(current: seq<Transaction>, baseline: seq<Transaction>)
    requires |baseline| > 0
    ensures ApprovalLoss(current, baseline) > 0.0 <==> ApprovalRate(current) < ApprovalRate(baseline)
    ensures ApprovalLoss(current, baseline) == 0.0 <==> ApprovalRate(current) == ApprovalRate(baseline)
  {
  }

  /** `map.get(id) || fallback`. */
  function NameOr(names: map<string, string>, id: string, fallback: string): string
  {
    if id in names && names[id] != "" then names[id] else fallback
  }

  /** The metrics of one route group: current reductions, names from the route key, and the baseline comparison. */
  function RouteMetricsFor(key: string, current: seq<Transaction>, baseline: seq<Transaction>,
                           names: FailurePrediction.NameTables): RouteMetrics
  {
    var parts := Split(key, '|');
    RouteMetrics(ApprovalRate(current), ErrorRate(current), P95Latency(current), |current|,
                 NameOr(names.merchants, parts[0], "Unknown Merchant"),
                 NameOr(names.providers, FailurePrediction.PartAt(parts, 1), "Unknown Provider"),
                 NameOr(names.methods, FailurePrediction.PartAt(parts, 2), "Unknown Method"),
                 NameOr(names.countries, FailurePrediction.PartAt(parts, 3), "Unknown Country"),
                 ApprovalLoss(current, baseline), if |baseline| > 0 then ApprovalRate(baseline) else 0.0)
  }

  /** A route's metrics are the reductions of its current group, compared with its baseline group. */
  lemma RouteMetricsFields(key: string, current: seq<Transaction>, baseline: seq<Transaction>, names: FailurePrediction.NameTables)
    ensures var m := RouteMetricsFor(key, current, baseline, names);
            m.sample_size == |current| && m.p95_latency == P95Latency(current) &&
            m.approval_rate == ApprovalRate(current) && m.error_rate == ErrorRate(current) &&
            0.0 <= m.approval_rate <= 1.0 && 0.0 <= m.error_rate <= 1.0 &&
            m.approval_loss_rate == ApprovalLoss(current, baseline) &&
            m.baseline_approval_rate == (if |baseline| > 0 then ApprovalRate(baseline) else 0.0)
  {
  }

  function RouteKeyFn(): Transaction -> string
  {
    tx => FailurePrediction.RouteKey(tx)
  }

  /** Route names come from the ids in the route key when no id contains `|`. */
  lemma RouteNames(tx: Transaction, current: seq<Transaction>, baseline: seq<Transaction>, names: FailurePrediction.NameTables)
    requires FailurePrediction.NoSeparatorInIds(tx)
    ensures var m := RouteMetricsFor(FailurePrediction.RouteKey(tx), current, baseline, names);
            m.merchant_name == NameOr(names.merchants, tx.merchant_id, "Unknown Merchant") &&
            m.provider_name == NameOr(names.providers, tx.provider_id, "Unknown Provider") &&
            m.method_name == NameOr(names.methods, tx.method_id, "Unknown Method") &&
            m.country_name == NameOr(names.countries, tx.country_code, "Unknown Country")
  {
    FailurePrediction.RouteKeySplits(tx);
  }

  /**
   * `getRouteMetrics`: the current transactions grouped by route, in order of
   * first appearance, each with its metrics against the same route's baseline
   * group; no routes at all when the current window is empty.
   */
  method GetRouteMetrics(txs: seq<Transaction>, q: HealthQuery, names: FailurePrediction.NameTables, now: int)
    returns (order: seq<string>, metrics: map<string, RouteMetrics>, current: seq<Transaction>)
    ensures current == CurrentTransactions(txs, q, now)
    ensures order == KeysOf(current, RouteKeyFn())
    ensures forall k :: k in metrics <==> k in order
    ensures forall k :: k in metrics ==>
              metrics[k] == RouteMetricsFor(k, Members(current, RouteKeyFn(), k),
                                            Members(BaselineTransactions(txs, q, now), RouteKeyFn(), k), names)
  {
    current := CurrentTransactions(txs, q, now);
    var baseline := BaselineTransactions(txs, q, now);
    if |current| == 0 {
      return [], map[], current;
    }
    var baselineOrder, baselineGroups := GroupBy(baseline, RouteKeyFn());
    BaselineLookup(baseline, baselineOrder, baselineGroups);
    order, metrics := MapGroups(current, RouteKeyFn(),
                                (k, g) => RouteMetricsFor(k, g, if k in baselineGroups then baselineGroups[k] else [], names));
  }

  /** `baselineRouteGroups.get(key) || []` is the route's baseline group. */
  lemma BaselineLookup(baseline: seq<Transaction>, order: seq<string>, groups: map<string, seq<Transaction>>)
    requires forall k :: k in groups <==> k in order
    requires order == KeysOf(baseline, RouteKeyFn())
    requires forall k :: k in groups ==> groups[k] == Members(baseline, RouteKeyFn(), k)
    ensures forall k :: (if k in groups then groups[k] else []) == Members(baseline, RouteKeyFn(), k)
  {
    forall k
      ensures (if k in groups then groups[k] else []) == Members(baseline, RouteKeyFn(), k)
    {
      if k !in groups {
        MembersOfAbsentKey(baseline, RouteKeyFn(), k);
      }
    }
  }

  // ---------------------------------------------------------------- dimension aggregates

  datatype Dimension = MerchantDim | ProviderDim | MethodDim | CountryDim

  function DimensionValue(d: Dimension, tx: Transaction): string
  {
    match d
    case MerchantDim => tx.merchant_id
    case ProviderDim => tx.provider_id
    case MethodDim => tx.method_id
    case CountryDim => tx.country_code
  }

  /** The selected dimensions of a transaction joined with `|`. */
  function DimensionKey(dims: seq<Dimension>, tx: Transaction): string
  {
    Join(DimensionValues(dims, tx), '|')
  }

  function DimensionValues(dims: seq<Dimension>, tx: Transaction): (vs: seq<string>)
    ensures |vs| == |dims| && forall i :: 0 <= i < |dims| ==> vs[i] == DimensionValue(dims[i], tx)
  {
    seq(|dims|, i requires 0 <= i < |dims| => DimensionValue(dims[i], tx))
  }

  function DimensionKeyFn(dims: seq<Dimension>): Transaction -> string
  {
    tx => DimensionKey(dims, tx)
  }

  /** A one-dimension key is the id itself; a two-dimension key is the two ids around a `|`. */
  lemma DimensionKeyShapes(tx: Transaction, a: Dimension, b: Dimension)
    ensures DimensionKey([a], tx) == DimensionValue(a, tx)
    ensures DimensionKey([a, b], tx) == DimensionValue(a, tx) + "|" + DimensionValue(b, tx)
  {
    var two := DimensionValues([a, b], tx);
    assert two == [DimensionValue(a, tx), DimensionValue(b, tx)];
    assert two[1..] == [DimensionValue(b, tx)];
    assert Join(two, '|') == two[0] + ['|'] + Join(two[1..], '|');
    assert Join([DimensionValue(b, tx)], '|') == DimensionValue(b, tx);
    assert DimensionValues([a], tx) == [DimensionValue(a, tx)];
  }

  /** The metrics of a partial aggregate: no names and no baseline comparison. */
  function DimensionMetrics(group: seq<Transaction>): RouteMetrics
  {
    RouteMetrics(ApprovalRate(group), ErrorRate(group), P95Latency(group), |group|, "", "", "", "", 0.0, 0.0)
  }

  /** An aggregate carries its group's reductions and never a loss. */
  lemma DimensionMetricsFields(group: seq<Transaction>)
    ensures var m := DimensionMetrics(group);
            m.sample_size == |group| && m.approval_loss_rate == 0.0 && m.baseline_approval_rate == 0.0 &&
            m.approval_rate == ApprovalRate(group) && m.error_rate == ErrorRate(group) && m.p95_latency == P95Latency(group)
  {
  }

  /** `calculateMetricsByDimension`: group by the joined dimensions and reduce every group. */
  method MetricsByDimension(txs: seq<Transaction>, dims: seq<Dimension>)
    returns (order: seq<string>, metrics: map<string, RouteMetrics>)
    ensures order == KeysOf(txs, DimensionKeyFn(dims))
    ensures forall k :: k in metrics <==> k in order
    ensures forall k :: k in metrics ==> metrics[k] == DimensionMetrics(Members(txs, DimensionKeyFn(dims), k))
  {
    order, metrics := MapGroups(txs, DimensionKeyFn(dims), (k, g) => DimensionMetrics(g));
  }

  /** The sample sizes of the aggregates add up to the number of transactions. */
  lemma DimensionSamplesSum(txs: seq<Transaction>, dims: seq<Dimension>)
    ensures SizeOfGroups(txs, DimensionKeyFn(dims), KeysOf(txs, DimensionKeyFn(dims))) == |txs|
    ensures forall i :: 0 <= i < |txs| ==> DimensionKey(dims, txs[i]) in KeysOf(txs, DimensionKeyFn(dims))
  {
    GroupSizesSum(txs, DimensionKeyFn(dims));
    forall i | 0 <= i < |txs|
      ensures DimensionKey(dims, txs[i]) in KeysOf(txs, DimensionKeyFn(dims))
    {
      assert DimensionKeyFn(dims)(txs[i]) == DimensionKey(dims, txs[i]);
    }
  }

  // ---------------------------------------------------------------- classification

  function StatusRank(s: NodeStatus): nat
  {
    match s
    case NodeOk => 0
    case NodeWarning => 1
    case NodeCritical => 2
  }

  predicate CriticalCondition(m: RouteMetrics, t: StatusThresholds)
  {
    m.approval_loss_rate >= t.critical_approval_loss_rate || m.error_rate >= t.critical_error_rate ||
    m.approval_rate <= t.critical_approval_rate || m.sample_size < 10
  }

  predicate WarningCondition(m: RouteMetrics, t: StatusThresholds)
  {
    m.approval_loss_rate >= t.warning_approval_loss_rate || m.error_rate >= t.warning_error_rate ||
    m.approval_rate <= t.warning_approval_rate || m.p95_latency > 5000
  }

  /** `determineRouteStatus`: approval loss, then error, approval and sample size, then the warning ladder. */
  function DetermineRouteStatus(m: RouteMetrics, t: StatusThresholds): (s: NodeStatus)
    ensures s == NodeCritical <==> CriticalCondition(m, t)
    ensures s == NodeWarning <==> !CriticalCondition(m, t) && WarningCondition(m, t)
    ensures s == NodeOk <==> !CriticalCondition(m, t) && !WarningCondition(m, t)
  {
    if m.approval_loss_rate >= t.critical_approval_loss_rate then NodeCritical
    else if m.error_rate >= t.critical_error_rate || m.approval_rate <= t.critical_approval_rate || m.sample_size < 10 then NodeCritical
    else if m.approval_loss_rate >= t.warning_approval_loss_rate then NodeWarning
    else if m.error_rate >= t.warning_error_rate || m.approval_rate <= t.warning_approval_rate || m.p95_latency > 5000 then NodeWarning
    else NodeOk
  }

  /** `b` is at least as bad as `a` on every input of the ladder. */
  predicate NoBetter(a: RouteMetrics, b: RouteMetrics)
  {
    b.approval_loss_rate >= a.approval_loss_rate && b.error_rate >= a.error_rate && b.approval_rate <= a.approval_rate &&
    b.sample_size <= a.sample_size && b.p95_latency >= a.p95_latency
  }

  /** A route that is worse on every metric never gets a better status. */
  lemma StatusMonotone(a: RouteMetrics, b: RouteMetrics, t: StatusThresholds)
    requires NoBetter(a, b)
    ensures StatusRank(DetermineRouteStatus(a, t)) <= StatusRank(DetermineRouteStatus(b, t))
  {
  }

  /** Fewer than 10 transactions is always critical, whatever the thresholds. */
  lemma SmallSampleIsCritical(m: RouteMetrics, t: StatusThresholds)
    requires m.sample_size < 10
    ensures DetermineRouteStatus(m, t) == NodeCritical
  {
  }

  function NodeStatusName(s: NodeStatus): string
  {
    match s
    case NodeOk => "ok"
    case NodeWarning => "warning"
    case NodeCritical => "critical"
  }

  function EdgeStatusName(s: EdgeStatus): string
  {
    match s
    case EdgeOk => "ok"
    case EdgeWarning => "warning"
    case EdgeCritical => "critical"
  }

  function NodeToEdgeStatus(s: NodeStatus): (e: EdgeStatus)
    ensures EdgeStatusName(e) == NodeStatusName(s)
  {
    match s
    case NodeCritical => EdgeCritical
    case NodeWarning => EdgeWarning
    case NodeOk => EdgeOk
  }

  /** The edge status mapping keeps the level and is one-to-one. */
  lemma NodeToEdgeInjective(a: NodeStatus, b: NodeStatus)
    ensures NodeToEdgeStatus(a) == NodeToEdgeStatus(b) <==> a == b
  {
  }

  /** `getEdgeLabel`, without the number formatting: which message and which figure it shows. */
  datatype EdgeLabel = LossLabel(loss: real) | FailureLabel(error_rate: real) | LowSampleLabel(sample_size: nat) | OkLabel(approval_rate: real)

  const LOSS_LABEL_THRESHOLD: real := 0.05

  function EdgeLabelFor(s: NodeStatus, m: RouteMetrics): (l: EdgeLabel)
    ensures m.approval_loss_rate > LOSS_LABEL_THRESHOLD ==> l == LossLabel(m.approval_loss_rate)
    ensures m.approval_loss_rate <= LOSS_LABEL_THRESHOLD ==>
              l == match s
                   case NodeCritical => FailureLabel(m.error_rate)
                   case NodeWarning => LowSampleLabel(m.sample_size)
                   case NodeOk => OkLabel(m.approval_rate)
  {
    if m.approval_loss_rate > LOSS_LABEL_THRESHOLD then LossLabel(m.approval_loss_rate)
    else
      match s
      case NodeCritical => FailureLabel(m.error_rate)
      case NodeWarning => LowSampleLabel(m.sample_size)
      case NodeOk => OkLabel(m.approval_rate)
  }

  /** Partial aggregates carry no loss, so their edges are always labelled by status. */
  lemma AggregateEdgeLabelsFollowStatus(group: seq<Transaction>, s: NodeStatus)
    ensures !EdgeLabelFor(s, DimensionMetrics(group)).LossLabel?
  {
  }

  // ---------------------------------------------------------------- graph

  datatype NodeKind = MerchantNode | ProviderNode | MethodNode | CountryNode

  datatype GraphNode = GraphNode(id: string, text: string, kind: NodeKind, status: NodeStatus, metrics: RouteMetrics)

  datatype GraphEdge = GraphEdge(from: string, to: string, status: EdgeStatus, caption: EdgeLabel, metrics: RouteMetrics)

  datatype PaymentRoute = PaymentRoute(merchant: GraphNode, provider: GraphNode, payment_method: GraphNode, country: GraphNode,
                                       overall: NodeStatus, edges: seq<GraphEdge>)

  /** The seven aggregate tables `buildPaymentRoutes` precomputes. */
  datatype Aggregates = Aggregates(
    byMerchant: map<string, RouteMetrics>,
    byProvider: map<string, RouteMetrics>,
    byMethod: map<string, RouteMetrics>,
    byCountry: map<string, RouteMetrics>,
    byMerchantProvider: map<string, RouteMetrics>,
    byProviderMethod: map<string, RouteMetrics>,
    byMethodCountry: map<string, RouteMetrics>)

  /** `table.get(key) || fallback`. */
  function LookupOr(table: map<string, RouteMetrics>, key: string, fallback: RouteMetrics): RouteMetrics
  {
    if key in table then table[key] else fallback
  }

  function Node(prefix: string, kind: NodeKind, id: string, text: string, m: RouteMetrics, t: StatusThresholds): (n: GraphNode)
    ensures n.id == prefix + id && n.status == DetermineRouteStatus(m, t) && n.metrics == m
  {
    GraphNode(prefix + id, text, kind, DetermineRouteStatus(m, t), m)
  }

  function Edge(from: GraphNode, to: GraphNode, m: RouteMetrics, t: StatusThresholds): (e: GraphEdge)
    ensures e.from == from.id && e.to == to.id
    ensures e.status == NodeToEdgeStatus(DetermineRouteStatus(m, t))
    ensures e.caption == EdgeLabelFor(DetermineRouteStatus(m, t), m)
  {
    var s := DetermineRouteStatus(m, t);
    GraphEdge(from.id, to.id, NodeToEdgeStatus(s), EdgeLabelFor(s, m), m)
  }

  /** One route of the graph: four nodes rated on their aggregates, three edges on the pair aggregates. */
  function BuildRoute(key: string, rm: RouteMetrics, agg: Aggregates, t: StatusThresholds): PaymentRoute
  {
    var parts := Split(key, '|');
    var m := parts[0];
    var p := FailurePrediction.PartAt(parts, 1);
    var me := FailurePrediction.PartAt(parts, 2);
    var c := FailurePrediction.PartAt(parts, 3);
    var merchant := Node("merchant-", MerchantNode, m, rm.merchant_name, LookupOr(agg.byMerchant, m, rm), t);
    var provider := Node("provider-", ProviderNode, p, rm.provider_name, LookupOr(agg.byProvider, p, rm), t);
    var paymentMethod := Node("method-", MethodNode, me, rm.method_name, LookupOr(agg.byMethod, me, rm), t);
    var country := Node("country-", CountryNode, c, rm.country_name, LookupOr(agg.byCountry, c, rm), t);
    PaymentRoute(merchant, provider, paymentMethod, country, DetermineRouteStatus(rm, t),
                 [Edge(merchant, provider, LookupOr(agg.byMerchantProvider, m + "|" + p, rm), t),
                  Edge(provider, paymentMethod, LookupOr(agg.byProviderMethod, p + "|" + me, rm), t),
                  Edge(paymentMethod, country, LookupOr(agg.byMethodCountry, me + "|" + c, rm), t)])
  }

  /** A route is rated on its own metrics and its three edges chain the four nodes. */
  lemma RouteShape(key: string, rm: RouteMetrics, agg: Aggregates, t: StatusThresholds)
    ensures var r := BuildRoute(key, rm, agg, t);
            r.overall == DetermineRouteStatus(rm, t) && |r.edges| == 3 &&
            r.edges[0].from == r.merchant.id && r.edges[0].to == r.provider.id &&
            r.edges[1].from == r.provider.id && r.edges[1].to == r.payment_method.id &&
            r.edges[2].from == r.payment_method.id && r.edges[2].to == r.country.id &&
            r.merchant.status == DetermineRouteStatus(r.merchant.metrics, t) &&
            r.edges[0].status == NodeToEdgeStatus(DetermineRouteStatus(r.edges[0].metrics, t))
  {
  }

  /** The nodes of a route are rated on the aggregates of the route's own ids. */
  lemma RouteNodesUseAggregates(tx: Transaction, rm: RouteMetrics, agg: Aggregates, t: StatusThresholds)
    requires FailurePrediction.NoSeparatorInIds(tx)
    requires tx.merchant_id in agg.byMerchant && tx.provider_id in agg.byProvider
    requires tx.merchant_id + "|" + tx.provider_id in agg.byMerchantProvider
    ensures var r := BuildRoute(FailurePrediction.RouteKey(tx), rm, agg, t);
            r.merchant.id == "merchant-" + tx.merchant_id && r.provider.id == "provider-" + tx.provider_id &&
            r.payment_method.id == "method-" + tx.method_id && r.country.id == "country-" + tx.country_code &&
            r.merchant.metrics == agg.byMerchant[tx.merchant_id] &&
            r.provider.metrics == agg.byProvider[tx.provider_id] &&
            r.edges[0].metrics == agg.byMerchantProvider[tx.merchant_id + "|" + tx.provider_id]
  {
    FailurePrediction.RouteKeySplits(tx);
  }

  /** The aggregate table of some dimensions, as a map. */
  function AggregateMap(txs: seq<Transaction>, dims: seq<Dimension>): map<string, RouteMetrics>
  {
    map k | k in KeysOf(txs, DimensionKeyFn(dims)) :: DimensionMetrics(Members(txs, DimensionKeyFn(dims), k))
  }

  function AggregatesOf(txs: seq<Transaction>): Aggregates
  {
    Aggregates(AggregateMap(txs, [MerchantDim]), AggregateMap(txs, [ProviderDim]), AggregateMap(txs, [MethodDim]),
               AggregateMap(txs, [CountryDim]), AggregateMap(txs, [MerchantDim, ProviderDim]),
               AggregateMap(txs, [ProviderDim, MethodDim]), AggregateMap(txs, [MethodDim, CountryDim]))
  }

  /** The aggregate table of the given dimensions. */
  method AggregateTable(txs: seq<Transaction>, dims: seq<Dimension>) returns (table: map<string, RouteMetrics>)
    ensures table == AggregateMap(txs, dims)
  {
    var order;
    order, table := MetricsByDimension(txs, dims);
  }

  /** The seven precomputed tables of `buildPaymentRoutes`. */
  method ComputeAggregates(txs: seq<Transaction>) returns (agg: Aggregates)
    ensures agg == AggregatesOf(txs)
  {
    var byMerchant := AggregateTable(txs, [MerchantDim]);
    var byProvider := AggregateTable(txs, [ProviderDim]);
    var byMethod := AggregateTable(txs, [MethodDim]);
    var byCountry := AggregateTable(txs, [CountryDim]);
    var byMerchantProvider := AggregateTable(txs, [MerchantDim, ProviderDim]);
    var byProviderMethod := AggregateTable(txs, [ProviderDim, MethodDim]);
    var byMethodCountry := AggregateTable(txs, [MethodDim, CountryDim]);
    agg := Aggregates(byMerchant, byProvider, byMethod, byCountry, byMerchantProvider, byProviderMethod, byMethodCountry);
  }

  /** `buildPaymentRoutes`: one route per route group, in order. */
  method BuildPaymentRoutes(order: seq<string>, metrics: map<string, RouteMetrics>, current: seq<Transaction>, t: StatusThresholds)
    returns (routes: seq<PaymentRoute>)
    requires forall i :: 0 <= i < |order| ==> order[i] in metrics
    ensures |routes| == |order|
    ensures forall i :: 0 <= i < |order| ==> routes[i] == BuildRoute(order[i], metrics[order[i]], AggregatesOf(current), t)
  {
    var agg := ComputeAggregates(current);
    routes := PushRoutes(order, metrics, agg, t);
  }

  /** The loop of `buildPaymentRoutes` that pushes one route per entry of the route table. */
  method PushRoutes(order: seq<string>, metrics: map<string, RouteMetrics>, agg: Aggregates, t: StatusThresholds)
    returns (routes: seq<PaymentRoute>)
    requires forall i :: 0 <= i < |order| ==> order[i] in metrics
    ensures |routes| == |order|
    ensures forall i :: 0 <= i < |order| ==> routes[i] == BuildRoute(order[i], metrics[order[i]], agg, t)
  {
    routes := [];
    for i := 0 to |order|
      invariant |routes| == i
      invariant forall j :: 0 <= j < i ==> routes[j] == BuildRoute(order[j], metrics[order[j]], agg, t)
    {
      var route := BuildRoute(order[i], metrics[order[i]], agg, t);
      routes := routes + [route];
    }
  }

  /** Every key of a transaction has an entry in the aggregate table. */
  lemma AggregateHasKey(txs: seq<Transaction>, dims: seq<Dimension>, i: nat)
    requires i < |txs|
    ensures DimensionKey(dims, txs[i]) in AggregateMap(txs, dims)
  {
    DimensionSamplesSum(txs, dims);
  }

  /** Every id of a transaction has its own aggregate, so a node never falls back to the route's metrics. */
  lemma SingleKeyCovered(txs: seq<Transaction>, d: Dimension, i: nat)
    requires i < |txs|
    ensures DimensionValue(d, txs[i]) in AggregateMap(txs, [d])
  {
    AggregateHasKey(txs, [d], i);
    DimensionKeyShapes(txs[i], d, d);
  }

  /** Every pair of adjacent ids has its own aggregate, so an edge never falls back to the route's metrics. */
  lemma PairKeyCovered(txs: seq<Transaction>, a: Dimension, b: Dimension, i: nat)
    requires i < |txs|
    ensures DimensionValue(a, txs[i]) + "|" + DimensionValue(b, txs[i]) in AggregateMap(txs, [a, b])
  {
    AggregateHasKey(txs, [a, b], i);
    DimensionKeyShapes(txs[i], a, b);
  }

  // ---------------------------------------------------------------- response

  datatype HealthSummary = HealthSummary(total_routes: nat, critical_routes: nat, warning_routes: nat, ok_routes: nat)

  datatype HealthGraphResponse = HealthGraphResponse(routes: seq<PaymentRoute>, summary: HealthSummary)

  predicate IsIssue(r: PaymentRoute)
  {
    r.overall != NodeOk
  }

  function CountStatus(routes: seq<PaymentRoute>, s: NodeStatus): nat
  {
    Count(routes, (r: PaymentRoute) => r.overall == s)
  }

  /** `only_issues` drops the OK routes; the summary counts the returned routes by status. */
  function Respond(routes: seq<PaymentRoute>, onlyIssues: bool): (resp: HealthGraphResponse)
    ensures onlyIssues ==> forall i :: 0 <= i < |resp.routes| ==> resp.routes[i].overall != NodeOk
    ensures !onlyIssues ==> resp.routes == routes
    ensures resp.summary.total_routes == |resp.routes|
    ensures resp.summary.critical_routes == CountStatus(resp.routes, NodeCritical)
    ensures resp.summary.warning_routes == CountStatus(resp.routes, NodeWarning)
    ensures resp.summary.ok_routes == CountStatus(resp.routes, NodeOk)
  {
    FilterMembers(routes, IsIssue);
    var returned := if onlyIssues then Filter(routes, IsIssue) else routes;
    HealthGraphResponse(returned, HealthSummary(|returned|, CountStatus(returned, NodeCritical),
                                                CountStatus(returned, NodeWarning), CountStatus(returned, NodeOk)))
  }

  /** Every route has exactly one of the three statuses, so the summary adds up. */
  lemma SummaryAddsUp(routes: seq<PaymentRoute>, onlyIssues: bool)
    ensures var s := Respond(routes, onlyIssues).summary;
            s.total_routes == s.critical_routes + s.warning_routes + s.ok_routes
    ensures onlyIssues ==> Respond(routes, onlyIssues).summary.ok_routes == 0
  {
    var returned := Respond(routes, onlyIssues).routes;
    CountSplit(returned, (r: PaymentRoute) => r.overall == NodeCritical, (r: PaymentRoute) => r.overall != NodeCritical);
    var rest := (r: PaymentRoute) => r.overall != NodeCritical;
    CountThree(returned);
    if onlyIssues {
      NoneCounted(returned, (r: PaymentRoute) => r.overall == NodeOk);
    }
  }

  lemma {:induction false} CountThree(rs: seq<PaymentRoute>)
    ensures CountStatus(rs, NodeCritical) + CountStatus(rs, NodeWarning) + CountStatus(rs, NodeOk) == |rs|
    decreases |rs|
  {
    if |rs| > 0 {
      CountThree(rs[..|rs| - 1]);
    }
  }

  lemma {:induction false} NoneCounted<T>(s: seq<T>, p: T -> bool)
    requires forall i :: 0 <= i < |s| ==> !p(s[i])
    ensures Count(s, p) == 0
    decreases |s|
  {
    if |s| > 0 {
      NoneCounted(s[..|s| - 1], p);
    }
  }

  /** The routes of the graph before the `only_issues` filter: one per route group of the current window. */
  function RoutesOf(current: seq<Transaction>, baseline: seq<Transaction>, names: FailurePrediction.NameTables,
                    t: StatusThresholds): seq<PaymentRoute>
  {
    var order := KeysOf(current, RouteKeyFn());
    seq(|order|, i requires 0 <= i < |order| =>
      BuildRoute(order[i], RouteMetricsFor(order[i], Members(current, RouteKeyFn(), order[i]),
                                           Members(baseline, RouteKeyFn(), order[i]), names),
                 AggregatesOf(current), t))
  }

  /** One route per distinct route key, in order of first appearance, each rated on its own group. */
  lemma RoutesPerKey(current: seq<Transaction>, baseline: seq<Transaction>, names: FailurePrediction.NameTables, t: StatusThresholds)
    ensures var order := KeysOf(current, RouteKeyFn());
            var routes := RoutesOf(current, baseline, names, t);
            |routes| == |order| &&
            forall i :: 0 <= i < |routes| ==>
              routes[i].overall == DetermineRouteStatus(
                RouteMetricsFor(order[i], Members(current, RouteKeyFn(), order[i]), Members(baseline, RouteKeyFn(), order[i]), names), t)
    ensures |current| == 0 ==> RoutesOf(current, baseline, names, t) == []
  {
    var order := KeysOf(current, RouteKeyFn());
    forall i | 0 <= i < |order|
      ensures RoutesOf(current, baseline, names, t)[i].overall == DetermineRouteStatus(
                RouteMetricsFor(order[i], Members(current, RouteKeyFn(), order[i]), Members(baseline, RouteKeyFn(), order[i]), names), t)
    {
      RouteShape(order[i], RouteMetricsFor(order[i], Members(current, RouteKeyFn(), order[i]), Members(baseline, RouteKeyFn(), order[i]), names),
                 AggregatesOf(current), t);
    }
  }

  /** `getHealthGraph`: routes of the current window, the `only_issues` filter and the summary. */
  method GetHealthGraph(txs: seq<Transaction>, q: HealthQuery, names: FailurePrediction.NameTables, now: int)
    returns (resp: HealthGraphResponse)
    ensures resp == Respond(RoutesOf(CurrentTransactions(txs, q, now), BaselineTransactions(txs, q, now), names, ThresholdsOf(q)),
                            q.only_issues)
  {
    var order, metrics, current := GetRouteMetrics(txs, q, names, now);
    var routes := BuildPaymentRoutes(order, metrics, current, ThresholdsOf(q));
    RoutesMatch(order, metrics, current, BaselineTransactions(txs, q, now), names, ThresholdsOf(q), routes);
    resp := Respond(routes, q.only_issues);
  }

  lemma RoutesMatch(order: seq<string>, metrics: map<string, RouteMetrics>, current: seq<Transaction>, baseline: seq<Transaction>,
                    names: FailurePrediction.NameTables, t: StatusThresholds, routes: seq<PaymentRoute>)
    requires order == KeysOf(current, RouteKeyFn())
    requires forall k :: k in metrics <==> k in order
    requires forall k :: k in metrics ==>
               metrics[k] == RouteMetricsFor(k, Members(current, RouteKeyFn(), k), Members(baseline, RouteKeyFn(), k), names)
    requires |routes| == |order|
    requires forall i :: 0 <= i < |order| ==> routes[i] == BuildRoute(order[i], metrics[order[i]], AggregatesOf(current), t)
    ensures routes == RoutesOf(current, baseline, names, t)
  {
    var expected := RoutesOf(current, baseline, names, t);
    forall i | 0 <= i < |order|
      ensures routes[i] == expected[i]
    {
      assert order[i] in order;
    }
  }
}
