# Payment monitoring backend: a verified model

The system watches the transaction stream of a payment platform. Several
services sit on that stream:

- **Failure prediction** groups transactions by merchant, provider, payment
  method, country or full route. It reduces each group to an error rate, an
  approval rate and a p95 latency, and compares the recent window with a
  baseline. It then turns four weighted signals into a logistic failure
  probability, a risk level and recommended actions. Around that it builds a
  summary with a global health score, automatic alerts, and top-3 views.
- **Risk notifications** turn those predictions into an escalation workflow:
  - a record per risky entity;
  - a message to the on-call guard;
  - reminders every 10 minutes;
  - escalation to the whole team after three attempts;
  - manual dismiss, propagate and resolve;
  - a weekly cleanup.
- **Health graph** rates every route (merchant → provider → method →
  country) with a threshold ladder to OK, WARNING or CRITICAL. It compares
  the route's approval rate with the window just before.
- **Smaller rule engines:**
  - metric anomaly alerts;
  - transaction statistics and a seven-day expected-versus-actual series;
  - on-call schedule selection and updates;
  - alert creation and channel routing;
  - notification status bookkeeping;
  - WhatsApp address formatting and message truncation;
  - the registry of notification channels.

The model is one Dafny module per service:

| service | module |
|---|---|
| failure prediction | `FailurePrediction` |
| risk notifications | `RiskNotifications` |
| health graph | `HealthGraph` |
| metric anomaly alerts | `MetricAnalysis` |
| transaction statistics | `TransactionStats` |
| on-call schedules | `OnCall` |
| alerts | `Alerts` |
| notifications | `Notifications` |
| WhatsApp channel | `WhatsApp` |
| channel registry | `ChannelFactory` |

Shared modules hold the rest:

- `Wrappers`: Option and Result.
- `Seqs`: filter, find, count and sum.
- `Strings`: prefix, split and join.
- `Phone`: the phone-number clean-up.
- `Sorting`: a stable sort, which stands for `Array.prototype.sort`.
- `Grouping`: a JavaScript `Map` filled in a loop.
- `RateMetrics`: rates and p95.
- `Entities`: the shared record shapes.

Conventions used throughout:

- The database tables are sequences or maps of records.
- Times are integers in milliseconds (days for the daily series), and the clock is a `now` parameter.
- Rates are exact `real`s.
- The logistic function is a parameter. Lemmas assume only that it is strictly increasing with values in (0, 1).
- Services whose methods change stored rows are classes with `modifies` clauses:
  - the alert, notification, on-call and risk-notification services;
  - the channel factory.
- Loops of the source are methods with loop invariants, proved against specification functions:
  - map grouping;
  - the series loop;
  - the route loop;
  - the retry sweep;
  - the per-channel alert delivery.
- Side effects that leave the model are described as values:
  - alerts created;
  - messages dispatched;
  - the outcome of a transport call.

## Model

| member | source | states |
|---|---|---|
| Seqs.Filter | src/failure-prediction/failure-prediction.service.ts:415-421 | `Array.filter`: the result is never longer than the input |
| Seqs.FilterMembers | src/failure-prediction/failure-prediction.service.ts:415-421 | `Array.filter` keeps exactly the elements that pass: each kept element is from the input and passes, and each passing element is kept |
| Seqs.FilterMember | src/failure-prediction/failure-prediction.service.ts:415-421 | anything found in a filtered list is an element of the input that passes |
| Seqs.FindFirst | src/on-call/on-call.service.ts:92-101 | `getOne` over an ordered table: the index found satisfies the predicate and no earlier row does; none only when no row does |
| Seqs.Window | src/risk-notification/risk-notification.service.ts:48-50 | `skip(n).take(m)`: at most m rows, each the input row at position n+i, empty past the end |
| Seqs.CountSplit | src/transaction/transaction.service.ts:121-133 | counts of two complementary predicates add up to the length |
| Seqs.MeanBounded | src/metric/metric.service.ts:201-205 | a mean of values between two bounds lies between them |
| Strings.Split | src/failure-prediction/failure-prediction.service.ts:247-249 | `split('|')` always yields at least one part |
| Strings.SplitJoin | src/failure-prediction/failure-prediction.service.ts:685-687 | splitting a joined key on the separator gives the parts back when no part contains it |
| Strings.Prefix | src/risk-notification/risk-notification.service.ts:852 | `slice(0, n)`: a prefix of the input of length at most n, the whole input when it is short enough |
| Phone.StripNoise | src/notification-channel/channels/whatsapp.channel.ts:103 | `replace(/[\s\-\(\)]/g, '')`: the result contains no whitespace, dash or bracket and every other character of the input |
| Phone.StripClean | src/notification-channel/channels/whatsapp.channel.ts:103 | removing the noise from clean text changes nothing |
| Phone.StripAppend | src/risk-notification/risk-notification.service.ts:812 | the clean-up works character by character: it distributes over concatenation |
| Sorting.SortBy | src/failure-prediction/failure-prediction.service.ts:130 | the sort used for `Array.sort` with a numeric comparator is a permutation of its input |
| Sorting.SortBySorted | src/failure-prediction/failure-prediction.service.ts:130 | the sorted output is ordered by the comparator's key |
| Sorting.SortByMembers | src/failure-prediction/failure-prediction.service.ts:130 | an element is in the sorted output exactly when it is in the input |
| Grouping.KeysOf | src/failure-prediction/failure-prediction.service.ts:586-616 | the keys of the filled `Map` are distinct and include the key of every element |
| Grouping.KeysOfOccur | src/failure-prediction/failure-prediction.service.ts:586-616 | every key of the `Map` is the key of some element |
| Grouping.Members | src/failure-prediction/failure-prediction.service.ts:586-616 | a group is never larger than the input |
| Grouping.MembersExactly | src/failure-prediction/failure-prediction.service.ts:586-616 | a group holds only elements of the input with its key, and every element with that key |
| Grouping.GroupStep | src/failure-prediction/failure-prediction.service.ts:586-616 | one pushed element keeps the map in step with the key order and the groups of the longer input: a new key is appended, a known key's group grows by the element |
| Grouping.MembersOfAbsentKey | src/failure-prediction/failure-prediction.service.ts:586-616 | a key that never occurs has an empty group |
| Grouping.GroupSizesSum | src/failure-prediction/failure-prediction.service.ts:586-616 | grouping is a partition: the group sizes add up to the input length |
| Grouping.ElementInExactlyOneGroup | src/failure-prediction/failure-prediction.service.ts:586-616 | each element lies in the group of its own key and in no other |
| Grouping.GroupBy | src/failure-prediction/failure-prediction.service.ts:586-616 | the loop `if (!map.has(k)) map.set(k, []); map.get(k).push(x)` yields exactly the keys in first-occurrence order and each group's members |
| Grouping.MapGroups | src/health-graph/health-graph.service.ts:596-640 | reducing every group of the filled `Map` gives one value per key, computed from exactly that key's members |
| RateMetrics.Rate | src/failure-prediction/failure-prediction.service.ts:412-422 | `total > 0 ? count / total : 0`: rate times total is the count, a proportion lies in [0, 1] |
| RateMetrics.ApprovalRate | src/failure-prediction/failure-prediction.service.ts:415-418 | the share of `approved` transactions, 0 for an empty group |
| RateMetrics.ErrorRate | src/failure-prediction/failure-prediction.service.ts:412-421 | the share of `error` or `timeout` transactions, 0 for an empty group |
| RateMetrics.RatesDisjoint | src/failure-prediction/failure-prediction.service.ts:412-421 | an approved transaction is never a failure, so the two rates add up to at most 1 |
| RateMetrics.RateAdd | src/failure-prediction/failure-prediction.service.ts:412-421 | rates over the same total add like their counts |
| RateMetrics.Latencies | src/failure-prediction/failure-prediction.service.ts:424 | one latency per transaction, a missing one read as 0 |
| RateMetrics.Ceil | src/failure-prediction/failure-prediction.service.ts:426 | `Math.ceil`: the least integer not below x |
| RateMetrics.P95IndexInRange | src/failure-prediction/failure-prediction.service.ts:426 | `max(0, ceil(0.95 n) - 1)` is a valid index for every non-empty group |
| RateMetrics.P95IndexExamples | src/failure-prediction/failure-prediction.service.ts:426 | the index is 0 for n = 0 and n = 1, 9 for n = 10, 18 for n = 20, 94 for n = 100 |
| RateMetrics.P95Latency | src/failure-prediction/failure-prediction.service.ts:424-428 | 0 for an empty group, otherwise one of the group's latencies |
| RateMetrics.P95Splits | src/failure-prediction/failure-prediction.service.ts:424-428 | the p95 value sits at the p95 index of the ascending latencies: nothing before it is larger, nothing after it smaller |
| FailurePrediction.MergeConfig | src/failure-prediction/failure-prediction.service.ts:689-704 | no configuration gives the defaults 0.35/0.25/0.25/0.15, 0.75/0.5/0.25, 0.5/10000/0.3 |
| FailurePrediction.MergeFullPatch | src/failure-prediction/failure-prediction.service.ts:689-704 | a patch naming every field replaces the defaults completely |
| FailurePrediction.MergeEmptyPatch | src/failure-prediction/failure-prediction.service.ts:689-704 | a patch naming nothing leaves the defaults |
| FailurePrediction.MergeFieldwise | src/failure-prediction/failure-prediction.service.ts:689-704 | a named field wins, an absent one keeps its default, group by group |
| FailurePrediction.CalculateMetrics | src/failure-prediction/failure-prediction.service.ts:401-441 | error rate counts error and timeout, approval rate counts approved, both 0 when empty; sample size is the recent count; recent error rate equals error rate; the baseline rate is the baseline group's error rate; p95 is one of the latencies |
| FailurePrediction.MakeSignal | src/failure-prediction/failure-prediction.service.ts:276-288 | a signal's contribution is its normalized value times its weight |
| FailurePrediction.BuildSignals | src/failure-prediction/failure-prediction.service.ts:276-342 | the four signals, error, latency, approval, trend in that order, each with the value, weight and normalization the scoring step gives it |
| FailurePrediction.CappedRatio | src/failure-prediction/failure-prediction.service.ts:279-282 | `min(value / max, 1)`: at most 1, in [0, 1] for non-negative input, exactly 1 from the bound on |
| FailurePrediction.ApprovalGapRatio | src/failure-prediction/failure-prediction.service.ts:306-320 | 0 when approval meets the minimum, otherwise within [0, min/(1 - min)] |
| FailurePrediction.TrendRatio | src/failure-prediction/failure-prediction.service.ts:333-336 | clamped to [0, 1], and 0 for a falling error rate |
| FailurePrediction.ApprovalGapBound | src/failure-prediction/failure-prediction.service.ts:306-320 | the approval shortfall divided by `1 - min` never exceeds `min / (1 - min)` |
| FailurePrediction.CappedRatioMonotone | src/failure-prediction/failure-prediction.service.ts:279-282 | a larger value never gives a smaller capped ratio |
| FailurePrediction.TrendRatioMonotone | src/failure-prediction/failure-prediction.service.ts:333-336 | a larger trend never gives a smaller normalized trend |
| FailurePrediction.TrendDirectionSymmetric | src/failure-prediction/failure-prediction.service.ts:323-329 | the trend bands (degrading above 0.05, improving below -0.05) are symmetric: negating the trend swaps degrading and improving and keeps stable |
| FailurePrediction.Contributions | src/failure-prediction/failure-prediction.service.ts:345 | the list of the signals' contributions, in signal order |
| FailurePrediction.RawScoreOfFour | src/failure-prediction/failure-prediction.service.ts:345 | the raw score of four signals is the sum of their contributions |
| FailurePrediction.ProbabilityInUnitInterval | src/failure-prediction/failure-prediction.service.ts:344-348 | the logistic probability lies strictly between 0 and 1 |
| FailurePrediction.ProbabilityMonotone | src/failure-prediction/failure-prediction.service.ts:344-348 | a higher raw score never gives a lower probability |
| FailurePrediction.RiskLevelBands | src/failure-prediction/failure-prediction.service.ts:350-360 | with ordered thresholds: critical iff p ≥ critical, high iff high ≤ p < critical, medium iff medium ≤ p < high, low iff p < medium |
| FailurePrediction.RiskLevelMonotone | src/failure-prediction/failure-prediction.service.ts:350-360 | with ordered thresholds a higher probability never gives a lower level |
| FailurePrediction.DominantIndex | src/failure-prediction/failure-prediction.service.ts:452-455 | the first signal holding the maximal contribution: no signal is larger, every earlier one is strictly smaller |
| FailurePrediction.Recommendations | src/failure-prediction/failure-prediction.service.ts:443-507 | low gives nothing, medium the two observation entries; critical starts with the immediate-action marker and for providers ends with failover; high has neither; high and critical act on the dominant signal |
| FailurePrediction.CalculateFailureProbability | src/failure-prediction/failure-prediction.service.ts:265-399 | probability = logistic(sum of contributions), level from the thresholds, confidence = min(n/100, 1), deviation 0 without a baseline, trend from error minus baseline, actions from the recommendations |
| FailurePrediction.ScoredProbabilityInRange | src/failure-prediction/failure-prediction.service.ts:344-348 | every scored group's probability lies strictly between 0 and 1 |
| FailurePrediction.ErrorRateRaisesRawScore | src/failure-prediction/failure-prediction.service.ts:276-345 | with non-negative weights a higher error rate never lowers the raw score |
| FailurePrediction.ErrorContributionMonotone | src/failure-prediction/failure-prediction.service.ts:276-288 | the error signal's contribution grows with the error rate |
| FailurePrediction.TrendContributionMonotone | src/failure-prediction/failure-prediction.service.ts:322-342 | the trend signal's contribution grows with the trend |
| FailurePrediction.ErrorRateRaisesProbability | src/failure-prediction/failure-prediction.service.ts:276-348 | a higher error rate never lowers the failure probability |
| FailurePrediction.RouteKeySplits | src/failure-prediction/failure-prediction.service.ts:685-687 | a route key splits back into its four ids when no id contains `|` |
| FailurePrediction.RouteKeyInjective | src/failure-prediction/failure-prediction.service.ts:685-687 | two transactions share a route key exactly when they share all four ids |
| FailurePrediction.PredictionsRespectMinSample | src/failure-prediction/failure-prediction.service.ts:166-172 | every prediction is of the requested kind, for a grouped key, from a group of at least the minimum sample size, whose size it reports |
| FailurePrediction.ScoredShape | src/failure-prediction/failure-prediction.service.ts:166-185 | one group yields exactly one prediction, of its own kind, id and sample size, when it has the minimum sample size, and none otherwise |
| FailurePrediction.PredictionsExtend | src/failure-prediction/failure-prediction.service.ts:165-186 | scoring one more group only appends: earlier predictions stay in place, and a large enough last group adds its own prediction at the end |
| FailurePrediction.LargeGroupsArePredicted | src/failure-prediction/failure-prediction.service.ts:166-172 | a group with at least the minimum sample size always yields a prediction |
| FailurePrediction.AnalyzeEntities | src/failure-prediction/failure-prediction.service.ts:141-263 | `analyzeEntities`/`analyzeRoutes`: group, skip small groups, score the rest against their baseline group, in group order |
| FailurePrediction.LevelCountsAddUp | src/failure-prediction/failure-prediction.service.ts:512-523 | the four level counts add up to the number of predictions |
| FailurePrediction.Probabilities | src/failure-prediction/failure-prediction.service.ts:526-531 | the probabilities the mean is taken over, one per prediction |
| FailurePrediction.CalculateSummary | src/failure-prediction/failure-prediction.service.ts:509-542 | high (critical + high), medium and low counts add up to the total; health score 100 with no predictions |
| FailurePrediction.HealthScoreIsPercentage | src/failure-prediction/failure-prediction.service.ts:526-531 | `round((1 - mean) * 100)` lies in [0, 100] |
| FailurePrediction.HealthScoreExample | src/failure-prediction/failure-prediction.service.ts:526-531 | predictions at 0.2 and 0.8 give a health score of 50 |
| FailurePrediction.AutoAlerts | src/failure-prediction/failure-prediction.service.ts:544-584 | one alert per high or critical prediction, in prediction order |
| FailurePrediction.AutoAlertCount | src/failure-prediction/failure-prediction.service.ts:544-584 | as many alerts as critical and high predictions together |
| FailurePrediction.AutoAlertsCoverHighRisk | src/failure-prediction/failure-prediction.service.ts:544-584 | every high-risk prediction has an alert and every alert comes from one |
| FailurePrediction.GenerateAutoAlerts | src/failure-prediction/failure-prediction.service.ts:544-584 | the loop creates exactly those alerts |
| FailurePrediction.AutoAlertSeverity | src/failure-prediction/failure-prediction.service.ts:553-556 | critical risk gives a CRITICAL alert, high risk a WARNING |
| FailurePrediction.RouteAlertMerchant | src/failure-prediction/failure-prediction.service.ts:558-563 | a route alert is filed under the route's merchant |
| FailurePrediction.BaselineContainsRecent | src/failure-prediction/failure-prediction.service.ts:78-92 | the baseline fetch has no upper bound, so it contains every recent transaction |
| FailurePrediction.SortedDescending | src/failure-prediction/failure-prediction.service.ts:130 | sorting by negated probability orders by descending probability |
| FailurePrediction.SelectAndSort | src/failure-prediction/failure-prediction.service.ts:124-130 | low risk dropped unless asked for; the result is a permutation of the kept predictions, by descending probability |
| FailurePrediction.QueryPredictions | src/failure-prediction/failure-prediction.service.ts:69-139 | the predictions of a query are of the requested kind and come from large enough groups |
| FailurePrediction.GetPredictions | src/failure-prediction/failure-prediction.service.ts:69-139 | windows, grouping, scoring, filter and sort, then the summary of exactly those predictions and their automatic alerts |
| FailurePrediction.TopPredictions | src/failure-prediction/failure-prediction.service.ts:709-728 | at most three predictions, all from the input, by descending probability |
| FailurePrediction.TopPredictionsAreHighest | src/failure-prediction/failure-prediction.service.ts:722-724 | no prediction left out of the top three is more probable than one in it |
| FailurePrediction.Ranked | src/failure-prediction/failure-prediction.service.ts:801-824 | the entries are ranked 1, 2, 3 in order |
| FailurePrediction.Top3ByEntityType | src/failure-prediction/failure-prediction.service.ts:709-728 | at most three non-low predictions of one kind, ranked from 1, by descending probability; the alerts its prediction query files are returned |
| FailurePrediction.KindPredictions | src/failure-prediction/failure-prediction.service.ts:712-718 | the `getPredictions` call of a top-3 view: the query keeps only the windows and the sample size (0 or missing falls back to 60, 168, 1), excludes low risk, runs under the default configuration, and files one alert per high or critical prediction |
| FailurePrediction.OverallTop3 | src/failure-prediction/failure-prediction.service.ts:733-774 | at most three non-low merchant, provider or method predictions, ranked, by descending probability; the alerts of the three queries are returned in call order |
| FailurePrediction.OverallKinds | src/failure-prediction/failure-prediction.service.ts:733-774 | the overall view never holds a country, a route or a low-risk prediction |
| FailurePrediction.TopOfKinds | src/failure-prediction/failure-prediction.service.ts:733-774 | the top three of merchant, provider and method lists hold only those kinds |
| FailurePrediction.GetTop3Summary | src/failure-prediction/failure-prediction.service.ts:779-796 | each per-kind view is the top three of its own kind, and the overall view is the ranked top three of the merchant, provider and method predictions together, exactly `OverallTop3`'s result; the per-kind and the overall queries each file the same alerts, so every high or critical prediction is filed twice |
| HealthGraph.RateOrDefault | src/health-graph/health-graph.service.ts:59-65 | `x \|\| d`: absent or 0 gives the default, anything else is kept |
| HealthGraph.MinutesOrDefault | src/health-graph/health-graph.service.ts:59 | the window of an absent or 0 value is the default |
| HealthGraph.DefaultThresholds | src/health-graph/health-graph.service.ts:59-65 | an empty query uses 0.3 / 0.15 / 0.5 / 0.7 / 0.2 / 0.1 and a 60-minute window |
| HealthGraph.WindowsDisjoint | src/health-graph/health-graph.service.ts:67-72 | the baseline window `[start - w, start)` shares no transaction with the current window and lies wholly before it |
| HealthGraph.ApprovalLoss | src/health-graph/health-graph.service.ts:269-284 | baseline approval minus current approval with a baseline group, else 0; always in [-1, 1] |
| HealthGraph.ApprovalLossSign | src/health-graph/health-graph.service.ts:269-284 | the loss is positive exactly when the route approves less than its baseline, 0 exactly when equally |
| HealthGraph.RouteMetricsFields | src/health-graph/health-graph.service.ts:249-298 | a route's metrics are its current group's sample size, rates and p95, with the loss against its baseline group |
| HealthGraph.RouteNames | src/health-graph/health-graph.service.ts:291-294 | the route's names are looked up from the four ids in its key |
| HealthGraph.GetRouteMetrics | src/health-graph/health-graph.service.ts:114-301 | the current window's routes in first-seen order, each with the metrics of its own current and baseline groups |
| HealthGraph.BaselineLookup | src/health-graph/health-graph.service.ts:269-270 | `baselineRouteGroups.get(key) \|\| []` is the route's baseline group |
| HealthGraph.DimensionValues | src/health-graph/health-graph.service.ts:596-604 | the ids of the selected dimensions, in order |
| HealthGraph.DimensionKeyShapes | src/health-graph/health-graph.service.ts:596-604 | a one-dimension key is the id, a two-dimension key the two ids around `|` |
| HealthGraph.DimensionMetricsFields | src/health-graph/health-graph.service.ts:626-640 | an aggregate carries its group's reductions and an approval loss of 0 |
| HealthGraph.MetricsByDimension | src/health-graph/health-graph.service.ts:589-643 | one aggregate per joined key, each reduced from exactly that key's transactions |
| HealthGraph.DimensionSamplesSum | src/health-graph/health-graph.service.ts:589-643 | the aggregates' sample sizes add up to the number of transactions |
| HealthGraph.DetermineRouteStatus | src/health-graph/health-graph.service.ts:645-687 | CRITICAL iff a critical condition holds (loss, error, approval, fewer than 10 samples); WARNING iff none does but a warning condition does (loss, error, approval, p95 > 5000); OK otherwise |
| HealthGraph.StatusMonotone | src/health-graph/health-graph.service.ts:645-687 | a route worse on every metric never gets a better status |
| HealthGraph.SmallSampleIsCritical | src/health-graph/health-graph.service.ts:668-670 | fewer than 10 transactions is critical whatever the thresholds |
| HealthGraph.NodeToEdgeStatus | src/health-graph/health-graph.service.ts:689-698 | the edge status has the node status's name |
| HealthGraph.NodeToEdgeInjective | src/health-graph/health-graph.service.ts:689-698 | the mapping is one-to-one |
| HealthGraph.EdgeLabelFor | src/health-graph/health-graph.service.ts:700-717 | a loss above 0.05 labels the edge with the loss; otherwise the label follows the status |
| HealthGraph.AggregateEdgeLabelsFollowStatus | src/health-graph/health-graph.service.ts:637 | an edge rated on an aggregate is never labelled by loss |
| HealthGraph.Node | src/health-graph/health-graph.service.ts:380-471 | a node is rated by the ladder on its own metrics |
| HealthGraph.Edge | src/health-graph/health-graph.service.ts:474-574 | an edge joins two nodes, with the mapped status and the label of its metrics |
| HealthGraph.RouteShape | src/health-graph/health-graph.service.ts:344-584 | a route's overall status is the ladder on its own metrics; its three edges chain the four nodes |
| HealthGraph.RouteNodesUseAggregates | src/health-graph/health-graph.service.ts:357-369 | the nodes and edges are rated on the aggregates of the route's own ids |
| HealthGraph.AggregateTable | src/health-graph/health-graph.service.ts:316-342 | each precomputed table is the aggregate map of its dimensions |
| HealthGraph.ComputeAggregates | src/health-graph/health-graph.service.ts:316-342 | the seven tables the route loop looks up |
| HealthGraph.BuildPaymentRoutes | src/health-graph/health-graph.service.ts:303-587 | one route per route key, in order, each built from its metrics and the aggregates |
| HealthGraph.PushRoutes | src/health-graph/health-graph.service.ts:344-584 | the loop pushes exactly one built route per key |
| HealthGraph.AggregateHasKey | src/health-graph/health-graph.service.ts:357-369 | every transaction's key has an entry in the aggregate table |
| HealthGraph.SingleKeyCovered | src/health-graph/health-graph.service.ts:357-362 | a node never falls back to the route's metrics |
| HealthGraph.PairKeyCovered | src/health-graph/health-graph.service.ts:363-369 | an edge never falls back to the route's metrics |
| HealthGraph.Respond | src/health-graph/health-graph.service.ts:91-105 | with `only_issues` no OK route is returned; the summary counts the returned routes by status |
| HealthGraph.SummaryAddsUp | src/health-graph/health-graph.service.ts:95-105 | total = critical + warning + ok, and ok = 0 under `only_issues` |
| HealthGraph.CountThree | src/health-graph/health-graph.service.ts:95-105 | every route has exactly one of the three statuses |
| HealthGraph.RoutesPerKey | src/health-graph/health-graph.service.ts:183-185 | one route per distinct route key, rated on its own group; no current transactions gives no routes |
| HealthGraph.GetHealthGraph | src/health-graph/health-graph.service.ts:56-112 | the routes of the current window compared with the baseline window, filtered and summarised |
| HealthGraph.RoutesMatch | src/health-graph/health-graph.service.ts:56-112 | the routes the loop builds are the routes of the specification |
| MetricAnalysis.AlertRequest | src/metric/metric.service.ts:184-192 | each created alert carries the metric's id, its merchant and the rule's severity, with no state |
| MetricAnalysis.AnalyzeMetric | src/metric/metric.service.ts:119-199 | one `create` call per detected alert, in rule order |
| MetricAnalysis.CollectAlerts | src/metric/metric.service.ts:120-181 | the four checks push exactly the alerts the rules raise, in rule order |
| MetricAnalysis.AlertsInRuleOrder | src/metric/metric.service.ts:120-181 | at most four alerts, one per rule, in rule order |
| MetricAnalysis.AnomalyRuleFires | src/metric/metric.service.ts:123-133 | an alert iff `score_anomalia ≥ 0.8`, always a WARNING |
| MetricAnalysis.ErrorRuleFires | src/metric/metric.service.ts:136-149 | an alert iff `error_rate ≥ 0.1`, CRITICAL exactly from 0.2 on |
| MetricAnalysis.ApprovalRuleFires | src/metric/metric.service.ts:152-165 | an alert iff `approval_rate < 0.7`, CRITICAL exactly under 0.5 |
| MetricAnalysis.LatencyRuleFires | src/metric/metric.service.ts:168-181 | an alert iff `p95_latency ≥ 5000`, CRITICAL exactly from 10000 on |
| MetricAnalysis.NullMetricIsQuiet | src/metric/metric.service.ts:123-171 | a null or undefined value never fires its rule: a metric with none set raises nothing |
| MetricAnalysis.Present | src/metric/metric.service.ts:202 | the values that are not null or undefined: never more than the entries |
| MetricAnalysis.PresentMembers | src/metric/metric.service.ts:202 | every non-null value is kept, and a value is kept only when some entry holds it |
| MetricAnalysis.CalculateAverage | src/metric/metric.service.ts:201-205 | 0 when no value is present |
| MetricAnalysis.AverageTimesCount | src/metric/metric.service.ts:201-205 | the average times the number of present values is their sum |
| MetricAnalysis.AverageBounded | src/metric/metric.service.ts:201-205 | the average lies between any bounds of the present values |
| MetricAnalysis.PresentSkipsNull | src/metric/metric.service.ts:202 | a null entry anywhere is dropped |
| MetricAnalysis.AverageIgnoresNull | src/metric/metric.service.ts:201-205 | a null entry anywhere does not move the average |
| TransactionStats.CountStatus | src/transaction/transaction.service.ts:122-133 | the number of transactions with that status |
| TransactionStats.CountStatusSnoc | src/transaction/transaction.service.ts:122-133 | one more transaction adds to its own status's count only |
| TransactionStats.TruthyLatencies | src/transaction/transaction.service.ts:137 | one entry per transaction whose latency is present and non-zero |
| TransactionStats.TruthyLatencyKept | src/transaction/transaction.service.ts:137 | every present, non-zero latency enters the average |
| TransactionStats.AverageLatency | src/transaction/transaction.service.ts:135-139 | 0 when no transaction has a truthy latency |
| TransactionStats.AverageLatencyTimesCount | src/transaction/transaction.service.ts:135-139 | otherwise it is their mean: the average times their number is their sum |
| TransactionStats.StatsOf | src/transaction/transaction.service.ts:121-151 | total and the four status counts of the selected transactions |
| TransactionStats.MerchantStatsScoped | src/transaction/transaction.service.ts:103-119 | another merchant's transaction, or one outside the period, changes nothing |
| TransactionStats.MethodStatsScoped | src/transaction/transaction.service.ts:245-261 | another method's transaction, or one outside the period, changes nothing |
| TransactionStats.GetStatsByProvider | src/transaction/transaction.service.ts:154-188 | the total is the number of the provider's transactions in the period, and approvals plus errors never exceed it |
| TransactionStats.StatusCountsAddUp | src/transaction/transaction.service.ts:121-133 | with only enum statuses, the four counts add up to the total |
| TransactionStats.ApprovalRatePercentage | src/transaction/transaction.service.ts:149 | `approvalRate` is 0 with no transactions, else within [0, 100] with rate·total = 100·approved |
| TransactionStats.Percent | src/transaction/transaction.service.ts:186 | `total > 0 ? count/total*100 : 0`: 0 for no total, else percent·total = 100·count, within [0, 100] when count ≤ total |
| TransactionStats.ProviderErrorRatePercentage | src/transaction/transaction.service.ts:186 | the provider error rate is the percentage of `error` transactions |
| TransactionStats.ProviderIgnoresTimeouts | src/transaction/transaction.service.ts:176-178 | a timeout does not count as a provider error |
| TransactionStats.AverageLatencyBounded | src/transaction/transaction.service.ts:135-139 | the average latency lies between the least and greatest truthy latency |
| TransactionStats.MissingLatencyIgnored | src/transaction/transaction.service.ts:137 | a missing or zero latency does not move the average |
| TransactionStats.AggregateRows | src/transaction/transaction.service.ts:295-333 | one row per day of the range having approved transactions, with that day's count |
| TransactionStats.ApprovedDailySeries | src/transaction/transaction.service.ts:335-351 | the map holds exactly the days with approvals, each with its count |
| TransactionStats.SeriesOf | src/transaction/transaction.service.ts:404-419 | one point per day of `[from, to)` in order, actual read from the current map and expected from the map seven days back, 0 for a missing day |
| TransactionStats.GetApprovedExpectedVsActual | src/transaction/transaction.service.ts:364-432 | seven points for the days today - 6 to today (range `[today - 6, today + 1)`), actual = that day's approvals, expected = approvals seven days earlier, weeks_history = 1 |
| TransactionStats.SeriesConsecutive | src/transaction/transaction.service.ts:404-419 | the series days are consecutive and ascending, ending today |
| OnCall.ParseDate | src/on-call/on-call.service.ts:27-34 | no date for absent or empty input, BadRequest for an unparseable one, the parsed date otherwise |
| OnCall.BeforeIrreflexive | src/on-call/on-call.service.ts:99-100 | the query order is a strict order: nothing sorts before itself |
| OnCall.BeforeTransitive | src/on-call/on-call.service.ts:113-115 | the query order is transitive |
| OnCall.First | src/on-call/on-call.service.ts:92-101 | the row `getOne` returns: eligible, and no eligible row sorts strictly before it |
| OnCall.FindByPriority | src/on-call/on-call.service.ts:89-102 | an active schedule of that priority, started (or no start) and not ended (or no end), latest start first then newest |
| OnCall.Current | src/on-call/on-call.service.ts:104-117 | an eligible schedule of any priority, lowest priority first |
| OnCall.CurrentHasLowestPriority | src/on-call/on-call.service.ts:113 | the schedule on duty has the lowest priority of all eligible schedules |
| OnCall.FindByPriorityPrefersLatestStart | src/on-call/on-call.service.ts:99-100 | no eligible schedule of that priority starts later than the one found |
| OnCall.CurrentIsFirstOfItsPriority | src/on-call/on-call.service.ts:104-117 | `current` picks what `findByPriority` picks for the priority it lands on |
| OnCall.FindSchedule | src/on-call/on-call.service.ts:68-79 | the index of the schedule with that id, none when there is none |
| OnCall.UpdateTouchesOnlyGivenFields | src/on-call/on-call.service.ts:119-142 | a field the update does not name keeps its value, a named one takes the new value; a date that parses to nothing keeps the stored one, so a date is never cleared |
| OnCall.EmptyUpdateKeepsSchedule | src/on-call/on-call.service.ts:119-142 | an update naming nothing changes nothing but the update time |
| OnCall.ReplacePreservesValid | src/on-call/on-call.service.ts:142 | saving an updated schedule in place keeps the ids distinct |
| OnCall.OnCallService.constructor | src/on-call/on-call.service.ts:20-25 | the table starts empty |
| OnCall.OnCallService.Create | src/on-call/on-call.service.ts:36-55 | an unknown user is BadRequest; a failure leaves the table unchanged; otherwise one schedule appended, active unless the request says otherwise |
| OnCall.UpdatedSchedule | src/on-call/on-call.service.ts:124-141 | the update succeeds exactly when a new user exists and both dates parse, and then is `ApplyUpdate`, where an empty date (assigned as `undefined`) keeps the stored one; every failure is BadRequest |
| OnCall.OnCallService.Update | src/on-call/on-call.service.ts:119-143 | unknown id is NotFound, an unknown new user BadRequest, a failure changes nothing; a known id with a valid user and parsable dates succeeds, and then only the named fields change |
| OnCall.Toggled | src/on-call/on-call.service.ts:145-149 | the saved schedule: `active` negated, every other field kept, stamped with the update time |
| OnCall.OnCallService.ToggleActive | src/on-call/on-call.service.ts:145-149 | a known schedule becomes `Toggled`: its flag flipped and nothing else changed; NotFound otherwise |
| OnCall.ToggleTwiceRestores | src/on-call/on-call.service.ts:145-149 | toggling twice gives back the schedule with only its update time moved; one toggle always changes it |
| ChannelFactory.Register | src/notification-channel/services/notification-channel.factory.ts:23-26 | the channel is stored under its `getName()`, replacing any earlier channel of that name |
| ChannelFactory.RegisterPreservesValid | src/notification-channel/services/notification-channel.factory.ts:23-26 | the name list stays the map's keys, each once |
| ChannelFactory.RegisterReplaces | src/notification-channel/services/notification-channel.factory.ts:23-26 | a second channel of the same name replaces the first and keeps its place |
| ChannelFactory.RegisterIdempotent | src/notification-channel/services/notification-channel.factory.ts:23-26 | registering the same channel twice is registering it once |
| ChannelFactory.NamesListEachOnce | src/notification-channel/services/notification-channel.factory.ts:36-38 | every registered name is listed exactly once |
| ChannelFactory.DefaultRegistry | src/notification-channel/services/notification-channel.factory.ts:17-20 | gmail, whatsapp and slack, in that order |
| ChannelFactory.NotificationChannelFactory.constructor | src/notification-channel/services/notification-channel.factory.ts:12-21 | the registry after construction is the default registry |
| ChannelFactory.NotificationChannelFactory.RegisterChannel | src/notification-channel/services/notification-channel.factory.ts:23-26 | the new registry is the old one with the channel registered |
| ChannelFactory.NotificationChannelFactory.GetChannel | src/notification-channel/services/notification-channel.factory.ts:28-34 | the registered channel, or none for an unknown name; the registry is not changed |
| ChannelFactory.NotificationChannelFactory.GetAvailableChannels | src/notification-channel/services/notification-channel.factory.ts:36-38 | the registered names in registration order, each once, exactly the map's keys |
| Notifications.SendStatus | src/notification/notification.service.ts:27-49 | never pending; sent exactly when the channel is registered and its send resolves to true |
| Notifications.UnknownChannelFails | src/notification/notification.service.ts:32-38 | an unknown channel type ends failed |
| Notifications.FailedAttemptFails | src/notification/notification.service.ts:40-48 | a send that throws or resolves to false ends failed |
| Notifications.FindNotification | src/notification/notification.service.ts:57-62 | the index of the row with that id, none when there is none |
| Notifications.AppendedFound | src/notification/notification.service.ts:19-25 | a row appended with the next id keeps the ids distinct and is the one found by that id |
| Notifications.SetStatusPreservesValid | src/notification/notification.service.ts:79-83 | changing a status keeps the ids distinct |
| Notifications.NotificationService.constructor | src/notification/notification.service.ts:13-17 | the table starts empty |
| Notifications.NotificationService.Create | src/notification/notification.service.ts:19-25 | one row appended, always pending, with the request's alert, user, channel and payload |
| Notifications.NotificationService.UpdateStatus | src/notification/notification.service.ts:79-83 | only `estado` of the row changes; NotFound for an unknown id |
| Notifications.NotificationService.SendNotification | src/notification/notification.service.ts:27-49 | the row ends with the send status and the result is true iff that status is sent |
| WhatsApp.FormatWhatsAppNumber | src/notification-channel/channels/whatsapp.channel.ts:96-111 | a `whatsapp:` address is kept; anything else is cleaned, given a `+` when it lacks one and prefixed, so it starts with `whatsapp:+` |
| WhatsApp.FormatIdempotent | src/notification-channel/channels/whatsapp.channel.ts:96-111 | formatting a formatted address changes nothing |
| WhatsApp.FormatIgnoresNoise | src/notification-channel/channels/whatsapp.channel.ts:103 | numbers that differ only in spaces, dashes and brackets format alike |
| WhatsApp.MessageBody | src/notification-channel/channels/whatsapp.channel.ts:46-48 | `*subject*\n\nbody` with a subject, just the body without |
| WhatsApp.TruncatedBody | src/notification-channel/channels/whatsapp.channel.ts:50-57 | the first min(length, 1600) characters of the message |
| WhatsApp.NewWhatsAppChannel | src/notification-channel/channels/whatsapp.channel.ts:15-29 | a client exists iff both credentials are set; the sender is the formatted configured number or the default |
| WhatsApp.DefaultSender | src/notification-channel/channels/whatsapp.channel.ts:19 | the default sender formats to `whatsapp:+14155238886` |
| WhatsApp.Outgoing | src/notification-channel/channels/whatsapp.channel.ts:42-64 | no message without a recipient; otherwise from the sender, to the formatted recipient, with the truncated body |
| WhatsApp.SendSucceedsIffAccepted | src/notification-channel/channels/whatsapp.channel.ts:71-73 | a configured send succeeds iff the reply is queued, sending, sent or delivered |
| WhatsApp.UnconfiguredAlwaysSucceeds | src/notification-channel/channels/whatsapp.channel.ts:34-39 | without a client every send reports success |
| WhatsApp.RejectedFails | src/notification-channel/channels/whatsapp.channel.ts:74-89 | a transport error, `failed` or `undelivered` is a failed send |
| Alerts.FindActive | src/alert/alert.service.ts:92 | exactly the active channels, in order |
| Alerts.NewAlert | src/alert/alert.service.ts:26-30 | the alert takes the request's fields, with state open unless one is given |
| Alerts.FindUser | src/alert/alert.service.ts:96-101 | the user the schedule points to, none when there is none |
| Alerts.OnCallRecipient | src/alert/alert.service.ts:95-108 | a recipient exactly when a priority-1 schedule with a user id is on duty; its email and number come from that user |
| Alerts.SelectRoute | src/alert/alert.service.ts:111-124 | slack wins with the slack address, then webhook, then a channel named whatsapp with the on-call number, else gmail to the on-call email or the channel's email |
| Alerts.RouteAsWritten | src/alert/alert.service.ts:121 | the routing with the channel name read from a property the entity does not have |
| Alerts.RouteFor | src/alert/alert.service.ts:111-124 | the routing with the channel's `nombre` column as its name |
| Alerts.RouteAsWrittenNeverWhatsApp | src/alert/alert.service.ts:121 | as written, no channel is ever routed to WhatsApp |
| Alerts.RouteForWhatsApp | src/alert/alert.service.ts:121-123 | a channel named whatsapp without slack or webhook goes to WhatsApp with the on-call number, unlike the routing as written |
| Alerts.RouteTypes | src/alert/alert.service.ts:111-124 | every route is slack, webhook, whatsapp or gmail |
| Alerts.AlertMessage | src/alert/alert.service.ts:143-145 | subject `ALERT <SEVERITY>: <title>`, a fixed body |
| Alerts.DeliveryRequest | src/alert/alert.service.ts:127-136 | the notification row request for the alert, the recipient and the channel |
| Alerts.Delivery | src/alert/alert.service.ts:127-156 | the stored row ends with the status of the send on the selected channel type |
| Alerts.Deliveries | src/alert/alert.service.ts:110-157 | one row per channel, consecutive ids |
| Alerts.DeliveriesSnoc | src/alert/alert.service.ts:110-157 | one more channel adds exactly its row |
| Alerts.Outbox | src/alert/alert.service.ts:89-167 | no rows without an on-call recipient, otherwise one per active channel |
| Alerts.OutboxOnePerActiveChannel | src/alert/alert.service.ts:110-157 | one row per active channel, for this alert and the on-call user, never left pending |
| Alerts.WebhookDeliveryFails | src/alert/alert.service.ts:118-120 | a webhook channel has no registered transport, so its row ends failed |
| Alerts.DeliverySentIff | src/alert/alert.service.ts:139-156 | a row ends sent iff its channel type is registered and the send resolves to true |
| Alerts.ApplyAlertUpdateAsWritten | src/alert/alert.service.ts:70-74 | `Object.assign` with a `state` key leaves `estado` as it was |
| Alerts.ApplyAlertUpdate | src/alert/alert.service.ts:70-74 | the named fields, status included, take the new values; the rest are kept |
| Alerts.AckAsWrittenKeepsAlert | src/alert/alert.service.ts:76-82 | acknowledge and resolve as written leave the alert unchanged, unlike the corrected update when the status differs |
| Alerts.StateUpdateSetsOnlyStatus | src/alert/alert.service.ts:76-82 | a status update changes only the status |
| Alerts.EmptyAlertUpdateKeeps | src/alert/alert.service.ts:70-74 | an update naming nothing keeps the alert |
| Alerts.FindAlert | src/alert/alert.service.ts:48-53 | the index of the alert with that id, none when there is none |
| Alerts.ReplaceAlertPreservesValid | src/alert/alert.service.ts:72-73 | saving an updated alert in place keeps the ids distinct |
| Alerts.AlertService.constructor | src/alert/alert.service.ts:18-24 | the alert table starts empty, over the given notification service |
| Alerts.AlertService.DeliverTo | src/alert/alert.service.ts:110-158 | one channel of the loop: exactly one outbox row is appended, with the next id, and is sent once |
| Alerts.AlertService.SendAlertNotifications | src/alert/alert.service.ts:89-167 | the loop appends exactly the outbox rows, advancing the ids by their number |
| Alerts.AlertService.Create | src/alert/alert.service.ts:26-40 | the alert is stored; only a critical alert adds the outbox rows |
| Alerts.AlertService.Update | src/alert/alert.service.ts:70-74 | NotFound for an unknown id, otherwise the updated alert replaces the stored one |
| Alerts.AlertService.Acknowledge | src/alert/alert.service.ts:76-78 | NotFound for an unknown id; otherwise the alert's status becomes ACK and nothing else changes |
| Alerts.AlertService.Resolve | src/alert/alert.service.ts:80-82 | NotFound for an unknown id; otherwise the alert's status becomes RESOLVED and nothing else changes |
| Alerts.AlertService.ResendNotifications | src/alert/alert.service.ts:169-172 | NotFound for an unknown id, otherwise the alert's outbox rows |
| RiskNotifications.SeverityFollowsLevel | src/risk-notification/risk-notification.service.ts:796-807 | critical gives CRITICAL, high and medium WARNING, low INFO; a higher level never gives a lower severity |
| RiskNotifications.FormatWhatsAppTo | src/risk-notification/risk-notification.service.ts:809-816 | none for a missing or empty number; otherwise a cleaned address starting with `whatsapp:` |
| RiskNotifications.FormatWhatsAppToIdempotent | src/risk-notification/risk-notification.service.ts:809-816 | a formatted address formats to itself |
| RiskNotifications.WhatsAppBody | src/risk-notification/risk-notification.service.ts:852 | the joined lines cut at 1600 characters |
| RiskNotifications.OnCallGuard | src/risk-notification/risk-notification.service.ts:597-606 | an active YUNO user with no smaller name among them, the earlier one on a tie; none when there is no such user |
| RiskNotifications.StrLessTrichotomy | src/risk-notification/risk-notification.service.ts:602 | names are totally ordered, so the guard is well defined |
| RiskNotifications.GuardDispatches | src/risk-notification/risk-notification.service.ts:234-310 | an email when gmail is active; a WhatsApp when it is active and the number formats |
| RiskNotifications.EscalationAsWrittenSkipsWhatsApp | src/risk-notification/risk-notification.service.ts:460-470 | as written the escalation never sends a WhatsApp |
| RiskNotifications.EscalationReachesEveryone | src/risk-notification/risk-notification.service.ts:438-489 | reading the user's number, every active YUNO user gets an email when they have one and a WhatsApp when their number formats |
| RiskNotifications.NewGuardRecord | src/risk-notification/risk-notification.service.ts:203-221 | status guard_notified, one attempt stamped now, the guard's id, not escalated |
| RiskNotifications.NewEscalatedRecord | src/risk-notification/risk-notification.service.ts:380-392 | status escalated, escalated to all now, no attempts |
| RiskNotifications.StepCases | src/risk-notification/risk-notification.service.ts:331-339 | an unselected record is unchanged; below 3 attempts one more attempt stamped now; from 3 on escalated now with attempts kept |
| RiskNotifications.ThirdSweepEscalates | src/risk-notification/risk-notification.service.ts:331-397 | a guard record left unanswered is reminded twice and escalated on the third eligible sweep |
| RiskNotifications.NoReminderTooSoon | src/risk-notification/risk-notification.service.ts:317-329 | a sweep within 10 minutes of the last attempt changes nothing |
| RiskNotifications.DismissStopsRetries | src/risk-notification/risk-notification.service.ts:321-329 | a dismissed record is never swept again |
| RiskNotifications.ResolveStopsRetries | src/risk-notification/risk-notification.service.ts:321-329 | a resolved record is never swept again |
| RiskNotifications.PropagateEscalates | src/risk-notification/risk-notification.service.ts:533-547 | propagating escalates whatever the attempt count, and the record is never swept again |
| RiskNotifications.Classify | src/risk-notification/risk-notification.service.ts:128-173 | which branch a detection takes: an active record, a recent dismissal, or a new record |
| RiskNotifications.Detect | src/risk-notification/risk-notification.service.ts:128-229 | a detection either keeps the number of records or appends exactly the new record under the next id |
| RiskNotifications.ActiveRecordBlocksCreation | src/risk-notification/risk-notification.service.ts:130-150 | with an active record nothing is created, and only its level and probability change, only when the level differs |
| RiskNotifications.OnlyActive | src/risk-notification/risk-notification.service.ts:130-137 | in a valid store an entity has at most one active record |
| RiskNotifications.DismissalSuppresses | src/risk-notification/risk-notification.service.ts:153-169 | a dismissal within 24 hours, with no active record, leaves the store unchanged |
| RiskNotifications.FreshEntityCreatesRecord | src/risk-notification/risk-notification.service.ts:172-229 | otherwise exactly one record is appended: the guard record, or the escalated record without a guard |
| RiskNotifications.DetectIdempotentWithGuard | src/risk-notification/risk-notification.service.ts:130-150 | with a guard on call, the same detection again changes nothing |
| RiskNotifications.DetectRepeatsWithoutGuard | src/risk-notification/risk-notification.service.ts:130-137 | without a guard, the escalated record does not block a second record |
| RiskNotifications.SuppressionWindow | src/risk-notification/risk-notification.service.ts:153-169 | a dismissal suppresses detection for 24 hours and no longer |
| RiskNotifications.PointwisePreservesValid | src/risk-notification/risk-notification.service.ts:346-349 | updating records in place without activating any keeps the store valid |
| RiskNotifications.DetectPreservesValid | src/risk-notification/risk-notification.service.ts:128-229 | a detection keeps ids distinct and at most one active record per entity |
| RiskNotifications.SweepRecords | src/risk-notification/risk-notification.service.ts:316-341 | every record after one sweep step |
| RiskNotifications.SweepTouchesOnlyPending | src/risk-notification/risk-notification.service.ts:317-329 | only selected records change, and no attempt count goes down |
| RiskNotifications.SweepPreservesValid | src/risk-notification/risk-notification.service.ts:316-341 | the sweep keeps the store valid |
| RiskNotifications.KeepFresh | src/risk-notification/risk-notification.service.ts:577-592 | cleanup never adds records |
| RiskNotifications.KeepFreshMembers | src/risk-notification/risk-notification.service.ts:577-592 | cleanup keeps only unexpired records of the store, and every unexpired one |
| RiskNotifications.CleanupDeletesExactlyExpired | src/risk-notification/risk-notification.service.ts:580-585 | cleanup deletes exactly the records resolved more than 7 days ago |
| RiskNotifications.KeepFreshPreservesValid | src/risk-notification/risk-notification.service.ts:577-592 | cleanup keeps the store valid |
| RiskNotifications.PageCount | src/risk-notification/risk-notification.service.ts:58 | `ceil(total / limit)`: the least number of pages holding every row |
| RiskNotifications.NewestFirstOrdered | src/risk-notification/risk-notification.service.ts:46-48 | the listed rows are the matching records, of the requested status, newest first |
| RiskNotifications.ListMinimal | src/risk-notification/risk-notification.service.ts:35-61 | at most `limit` rows from offset `(page - 1) * limit`, with the total and the page count |
| RiskNotifications.ListMinimalRows | src/risk-notification/risk-notification.service.ts:35-61 | every listed row has the requested status, and a page is newest first |
| RiskNotifications.RiskNotificationService.constructor | src/risk-notification/risk-notification.service.ts:23-33 | the record table starts empty |
| RiskNotifications.RiskNotificationService.ProcessRiskyEntity | src/risk-notification/risk-notification.service.ts:128-173 | the store after the detection, with its alert and messages |
| RiskNotifications.RiskNotificationService.NotifyGuard | src/risk-notification/risk-notification.service.ts:178-229 | one record appended: the guard record with the guard's alert and messages, or the escalated record with a CRITICAL alert to all |
| RiskNotifications.RemindOrEscalate | src/risk-notification/risk-notification.service.ts:331-369 | one sweep step: a selected record below 3 attempts is retried and its guard reminded, from 3 on it is escalated, any other is untouched |
| RiskNotifications.SweepPending | src/risk-notification/risk-notification.service.ts:316-369 | the loop over the records: each ends as its own sweep step, and the effects are those of the records in order |
| RiskNotifications.RiskNotificationService.CheckPendingGuardNotifications | src/risk-notification/risk-notification.service.ts:316-369 | every record after one sweep step, with the reminders and escalations it sends |
| RiskNotifications.RiskNotificationService.CleanupOldNotifications | src/risk-notification/risk-notification.service.ts:577-592 | the records kept by cleanup |
| RiskNotifications.RiskNotificationService.CheckAndNotifyRisks | src/risk-notification/risk-notification.service.ts:68-118 | the risky merchant and provider predictions are detected in order, with exactly the messages and alerts of that detection, then cleanup runs |
| RiskNotifications.RiskNotificationService.ProcessEach | src/risk-notification/risk-notification.service.ts:104-106 | the loop applies one detection per prediction, in order |
| RiskNotifications.RiskNotificationService.DismissRiskNotification | src/risk-notification/risk-notification.service.ts:502-528 | NotFound and no change for an unknown id; otherwise the dismissed fields and status dismissed |
| RiskNotifications.RiskNotificationService.PropagateRiskNotification | src/risk-notification/risk-notification.service.ts:533-547 | NotFound and no change for an unknown id; otherwise escalated, with the escalation's alert and messages |
| RiskNotifications.RiskNotificationService.MarkAsResolved | src/risk-notification/risk-notification.service.ts:552-572 | NotFound and no change for an unknown id; otherwise resolved now with status resolved |
| RiskNotifications.FindById | src/risk-notification/risk-notification.service.ts:507-509 | the index of the record with that id, none when there is none |
| RiskNotifications.RiskQuery | src/risk-notification/risk-notification.service.ts:73-84 | the query of the periodic check: one kind, a 10800-minute window, no entity filter, low risk excluded |
| RiskNotifications.RiskyPredictionsKinds | src/risk-notification/risk-notification.service.ts:86-97 | every prediction acted on is a medium, high or critical merchant or provider |
| RiskNotifications.DetectAllExtends | src/risk-notification/risk-notification.service.ts:104-106 | detection never deletes or reorders records: the old store is a prefix of the new one |

## Left out

- Persistence, HTTP and scheduling are not modelled:
  - TypeORM repositories and query builders become filters over sequences whose predicates follow the `where` clauses;
  - the NestJS modules, controllers and dependency injection are left out;
  - the `@Cron` triggers become explicitly called methods taking `now`, and each call runs to completion before the next starts;
  - `Promise.all` in the top-3 views becomes sequential evaluation.
- Overlapping runs are not modelled. `checkAndNotifyRisks` runs every minute and `checkGuardRetries` every 10 minutes (src/risk-notification/risk-notification.service.ts:67-68, 120-121), and a new tick does not wait for an unfinished async run. The members below assume calls are sequential:
- CheckAndNotifyRisks: assumes no other run is in progress. Two runs that overlap can both find no active record for the same new risky entity, because the lookup (lines 130-137) comes before the awaited alert creation and fan-out (line 194, and src/alert/alert.service.ts:35-36), while the record is saved only at line 221. The source then saves two `guard_notified` records. `ValidStore`, `OnlyActive` and `DetectPreservesValid` state the single-active-record invariant for sequential calls only.
- ProcessRiskyEntity: its lookup-then-save is treated as atomic, which an overlapping run breaks as described under CheckAndNotifyRisks.
- CheckPendingGuardNotifications: assumes no detection run is in progress. A sweep's save can interleave with the level update of the same row, which the model does not capture.
- `MetricAnalysis.CalculateAverage` is modelled on numbers. Its one caller, `getAggregatedMetrics` (src/metric/metric.service.ts:104-109), is a repository query and is not modelled. That caller passes decimal columns (src/metric/entities/metric.entity.ts:15-42), which the Postgres driver returns as strings, so two or more present values would concatenate and average to `NaN`. It also maps `m.value` where the column is `valor`.
- Transports are left out. The Twilio client, nodemailer, Slack and e-mail channel internals, and `fetch` are not modelled. A transport's answer is an input function: it resolves to a flag or throws.
- The webhook channel type is routed by the alert service but has no registered transport, so its rows end failed (`Alerts.WebhookDeliveryFails`).
- E-mail and WhatsApp templates, emoji titles, `toFixed` formatting, logging and `console.log` are left out. Only the 1600-character cut of the WhatsApp bodies is modelled (`RiskNotifications.WhatsAppBody`); risk-notification message texts are identified by their recipient and channel only.
- Floating point is not modelled:
  - `Math.exp` is an abstract strictly increasing logistic into (0, 1);
  - rates are exact reals;
  - `Math.round` is floor(x + 0.5).
- JavaScript `Date`:
  - times are milliseconds;
  - days in the expected-versus-actual series are integers standing for UTC dates;
  - `toISOString().slice(0, 10)` is the day number itself.
- The JSON payload of a notification row is the alert summary value itself, not its `JSON.stringify` text.
- DTO field names:
  - The metric's `score_anomalia` etc. and the alert DTO's `metric_id`/`severity`/`title`/`explanation` are taken to land on the entity columns `metrica_id`/`severidad`/`titulo`/`explicacion`.
  - Only the `state`/`estado` and `name`/`nombre` mismatches, on which behaviour visibly depends, are modelled (see Findings).
- The channel lookups of the risk-notification service query a `name` property, but the channel entity's column is `nombre` (src/notification-channel/entities/notification-channel.entity.ts:10). The affected lookups are src/risk-notification/risk-notification.service.ts:243-245, 273-275 and 419-425.
  - As written, such a lookup cannot find the active channel. Depending on the ORM version, it either throws on the unknown `where` key or sends a column the database rejects.
  - In either case the guard notification or escalation fails after its alert and record are saved. The catch at lines 115-117 then skips the remaining risky entities and the cleanup for that tick.
  - The model does not capture this failure. It takes which of gmail and WhatsApp is active as an input (`RiskNotifications.Channels`), so the members below describe messages that the code as written would not send:
- GuardDispatches: assumes the gmail and WhatsApp lookups succeed; as written they never find a channel.
- EscalationDispatches: assumes the escalation's two lookups succeed; as written they never find a channel.
- NotifyGuard: its messages come from GuardDispatches or EscalationDispatches, so as written they are not sent, and the call fails after the record is saved.
- ProcessRiskyEntity: its messages come from the same lookups, so as written they are not sent.
- ProcessEach: continues with the next risky entity, where as written the first failed lookup ends the loop.
- CheckAndNotifyRisks: detects every risky entity and then runs cleanup, where as written the first failed lookup skips the remaining entities and the cleanup.
- RemindOrEscalate: sends the reminder or escalation, where as written the lookup throws.
- SweepPending: sweeps every pending record, where as written the first failed lookup throws out of the sweep.
- CheckPendingGuardNotifications: reminds or escalates every pending record, where as written the first failed lookup ends the run.
- PropagateRiskNotification: its escalation messages assume the lookups succeed.
- NewAlert: an alert requested without a metric is built with no `metrica_id`. The entity declares that column as a non-nullable uuid (src/alert/entities/alert.entity.ts:19-20), and outside production the schema is synchronized from the entities (src/app.module.ts:66). So, as written, the database may refuse such an insert. This covers every auto-alert of the failure-prediction service and every risk-notification alert. The NOT NULL constraint is not modelled, because it holds only under a synchronized or matching schema, which the code does not fix.
- Create (`Alerts.AlertService.Create`): stores an alert without a metric, where as written the database may refuse the insert, as stated under NewAlert, and the caller's request then fails.
- Plain CRUD operations are not modelled:
  - the services' `findAll`, `findOne` listings, `findByStatus`, `findByMerchant`, `findByUser` and `remove`;
  - the last-N-days transaction finders;
  - the user, country, merchant, provider and payment-method services.
- `buildAlertExplanation` and the e-mail body builders produce display text only and are not modelled.
- The health-graph summary divides nothing; its text labels are reduced to which message and figure an edge shows (`HealthGraph.EdgeLabelFor`).
- The weighted dashboard blend in the prediction controller is not modelled.
- `FailurePrediction.CalculateFailureProbability`:
  - These fields are given by their defining quantities: `deviation_percentage` is stated only for a zero baseline, and `rate_of_change` is the raw error trend.
  - The text of each recommended action is an enumeration value.
- `OnCall.ParseDate`: the platform's date parser is an input function. Only "absent, empty, invalid or a date" is modelled.
- `RiskNotifications.OnCallGuard` orders names by character code, which is how a binary collation orders them. A database with a locale-aware collation may order names differently.
- Throwing services are modelled as `Result`, `Outcome` or `Err` values rather than exceptions.
- A thrown error inside `sendAlertNotifications` is rethrown and stops the loop. The model covers only sends that resolve or throw inside `sendNotification`, which catches them.

- TruncatedBody: cuts at 1600 Unicode scalar values, while `substring(0, 1600)` counts UTF-16 code units. Text outside the Basic Multilingual Plane is therefore cut later than in the source: of 1600 emoji the source keeps 800, the model all 1600.
- WhatsAppBody: the same difference for `slice(0, 1600)`, which counts UTF-16 code units where the model counts scalar values.
- Create (`Notifications.NotificationService.Create`): takes the request keys `alerta_id`, `usuario_id` and `canal_id` to land on the columns `alert_id`, `user_id` and `channel_id`. The code itself notes this mismatch, and a literal reading would store rows without them.
- Delivery: builds its notification request under the same key mapping as `Notifications.NotificationService.Create`.
- `FailurePrediction.ValidNormalization` is required by BuildSignals, CalculateFailureProbability, AnalyzeEntities and GetPredictions. It excludes a zero `max_error_rate` or `max_latency` and a `min_approval_rate` of exactly 1, where JavaScript would divide by zero into `NaN` or `Infinity`. `RiskNotifications.ListMinimal` requires `page >= 1 && limit > 0`, which excludes the `take(0)` case. Neither input is reachable through the validated requests seen in the code.

The services below use the corrected halves of the Findings rows, not the code as written. Each member's contract states the intended behaviour.

- Delivery: routes a channel named `whatsapp` in its `nombre` column to WhatsApp (`Alerts.RouteFor`). As written, the code compares the missing `name` and never picks WhatsApp (`Alerts.RouteAsWritten`, Findings row 3).
- DeliverTo: appends the row that Delivery describes, so it uses the corrected routing.
- SendAlertNotifications: its outbox uses the corrected routing of Delivery.
- Create (`Alerts.AlertService.Create`): fans a critical alert out with the corrected routing of Delivery.
- ResendNotifications: resends with the corrected routing of Delivery.
- Update (`Alerts.AlertService.Update`): writes the requested `state` into `estado` (`Alerts.ApplyAlertUpdate`). As written, the status is never stored (`Alerts.ApplyAlertUpdateAsWritten`, Findings row 2).
- Acknowledge: sets the status to ACK. As written, the stored status stays as it was (Findings row 2).
- Resolve: sets the status to RESOLVED. As written, the stored status stays as it was (Findings row 2).
- EscalationDispatches: reads the user's `number` (`RiskNotifications.PhoneNumber`). As written, the code reads `cellphone ?? phone`, which a user does not have, so no escalation WhatsApp is ever sent (`RiskNotifications.PhoneAsRead`, Findings row 1).
- DetectEffects: its escalation messages follow EscalationDispatches.
- StepEffects: its escalation messages follow EscalationDispatches.
- NotifyGuard: without a guard, escalates with the WhatsApp messages of EscalationDispatches.
- ProcessRiskyEntity: its escalation messages follow EscalationDispatches.
- ProcessEach: its effects follow EscalationDispatches.
- CheckAndNotifyRisks: its effects follow EscalationDispatches.
- RemindOrEscalate: its escalation branch follows EscalationDispatches.
- SweepPending: its escalations follow EscalationDispatches.
- CheckPendingGuardNotifications: its escalations follow EscalationDispatches.
- PropagateRiskNotification: its escalation's WhatsApp messages follow EscalationDispatches.

Where the code and its design notes disagree, the model follows the code:

- The failure-prediction baseline fetch has no upper bound and contains the recent transactions (`FailurePrediction.BaselineContainsRecent`). The health-graph baseline window is disjoint from the current one (`HealthGraph.WindowsDisjoint`).
- The p95 index of ten values is 9 (`RateMetrics.P95IndexExamples`).
- A guard record created with one attempt escalates on the third eligible sweep (`RiskNotifications.ThirdSweepEscalates`).
- The duplicate check keys only on `guard_notified`, so an escalated record does not block a new one (`RiskNotifications.DetectRepeatsWithoutGuard`).
- Manual dismiss, propagate and resolve do not check the current status.

## Findings

| source | as written | input that shows it | evidently intended | confidence | as-written member | corrected member |
|---|---|---|---|---|---|---|
| src/risk-notification/risk-notification.service.ts:461-462 | the escalation reads `cellphone ?? phone`, columns a user does not have, so the number is always missing | any active YUNO user with a number, WhatsApp channel active | the user's `number` column, as the guard notification reads it (line 278) | not executed | RiskNotifications.EscalationAsWrittenSkipsWhatsApp | RiskNotifications.EscalationReachesEveryone |
| src/alert/alert.service.ts:76-82 | acknowledge and resolve pass `{ state }` to `Object.assign`, but the status column is `estado`, so the stored status never changes | an open alert, acknowledged | the status becomes ACK or RESOLVED | not executed | Alerts.AckAsWrittenKeepsAlert | Alerts.StateUpdateSetsOnlyStatus |
| src/alert/alert.service.ts:121 | the routing compares `channel.name`, but a channel's name column is `nombre`, so no channel is ever routed to WhatsApp | an active channel with `nombre = 'whatsapp'` and no slack or webhook | that channel goes to WhatsApp with the on-call number | not executed | Alerts.RouteAsWrittenNeverWhatsApp | Alerts.RouteForWhatsApp |
