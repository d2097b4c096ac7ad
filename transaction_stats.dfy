/**
 * `TransactionService` analysis: per-merchant, per-provider and
 * per-payment-method status counts, and the seven-day series of approved
 * transactions against the same days one week earlier.
 */
module TransactionStats {
  import opened Wrappers
  import opened Seqs
  import opened Entities
  import opened RateMetrics

  /** Optional `startDate`/`endDate`; the range applies only when both are given. */
  datatype Period = Period(startDate: Option<int>, endDate: Option<int>)

  /** `tx.date BETWEEN :startDate AND :endDate` (both ends inclusive), or no bound. */
  predicate InPeriod(tx: Transaction, p: Period)
  {
    p.startDate.Some? && p.endDate.Some? ==> p.startDate.value <= tx.date <= p.endDate.value
  }

  function MerchantScope(merchantId: string, p: Period): Transaction -> bool
  {
    (tx: Transaction) => tx.merchant_id == merchantId && InPeriod(tx, p)
  }

  function ProviderScope(providerId: string, p: Period): Transaction -> bool
  {
    (tx: Transaction) => tx.provider_id == providerId && InPeriod(tx, p)
  }

  function MethodScope(methodId: string, p: Period): Transaction -> bool
  {
    (tx: Transaction) => tx.method_id == methodId && InPeriod(tx, p)
  }

  /** `transactions.filter((tx) => tx.status === s).length`. */
  function CountStatus(txs: seq<Transaction>, s: TxStatus): (n: nat)
    ensures n <= |txs|
    decreases |txs|
  {
    if |txs| == 0 then 0
    else CountStatus(txs[..|txs| - 1], s) + (if txs[|txs| - 1].status == s then 1 else 0)
  }

  /** Two different statuses never count the same transaction. */
  lemma {:induction false} CountStatusDisjoint(txs: seq<Transaction>, a: TxStatus, b: TxStatus)
    requires a != b
    ensures CountStatus(txs, a) + CountStatus(txs, b) <= |txs|
    decreases |txs|
  {
    if |txs| > 0 {
      CountStatusDisjoint(txs[..|txs| - 1], a, b);
    }
  }

  lemma CountStatusSnoc(txs: seq<Transaction>, tx: Transaction, s: TxStatus)
    ensures CountStatus(txs + [tx], s) == CountStatus(txs, s) + (if tx.status == s then 1 else 0)
  {
    assert (txs + [tx])[..|txs|] == txs;
  }

  /** A latency the `filter((tx) => tx.latency_ms)` keeps: present and non-zero. */
  predicate HasLatency(tx: Transaction)
  {
    tx.latency_ms.Some? && tx.latency_ms.value != 0
  }

  /** `filter((tx) => tx.latency_ms)` read through `tx.latency_ms || 0`: the latencies that enter the average, in order. */
  function TruthyLatencies(txs: seq<Transaction>): (ls: seq<real>)
    ensures |ls| == Count(txs, HasLatency)
  {
    var kept := Filter(txs, HasLatency);
    seq(|kept|, i requires 0 <= i < |kept| => LatencyOrZero(kept[i]) as real)
  }

  /** Every present, non-zero latency enters the average. */
  lemma TruthyLatencyKept(txs: seq<Transaction>, i: nat)
    requires i < |txs| && HasLatency(txs[i])
    ensures txs[i].latency_ms.value as real in TruthyLatencies(txs)
  {
    var kept := Filter(txs, HasLatency);
    FilterMembers(txs, HasLatency);
    var j :| 0 <= j < |kept| && kept[j] == txs[i];
    assert TruthyLatencies(txs)[j] == txs[i].latency_ms.value as real;
  }

  /** The summed truthy latencies over their count, the count read as 1 when it is 0. */
  function AverageLatency(txs: seq<Transaction>): (r: real)
    ensures Count(txs, HasLatency) == 0 ==> r == 0.0
  {
    var ls := TruthyLatencies(txs);
    Sum(ls) / (if |ls| == 0 then 1 else |ls|) as real
  }

  /** With some latency present, the average times their number is their sum. */
  lemma AverageLatencyTimesCount(txs: seq<Transaction>)
    requires Count(txs, HasLatency) > 0
    ensures AverageLatency(txs) * Count(txs, HasLatency) as real == Sum(TruthyLatencies(txs))
  {
    var ls := TruthyLatencies(txs);
    var n, total := |ls| as real, Sum(ls);
    var avg := AverageLatency(txs);
    assert avg == total / n;
    QuotientTimes(total, n);
    assert avg * n == total;
    assert |ls| == Count(txs, HasLatency);
    assert n == Count(txs, HasLatency) as real;
  }

  /** `total > 0 ? (count / total) * 100 : 0`. */
  function Percent(count: nat, total: nat): (pct: real)
    ensures total == 0 ==> pct == 0.0
    ensures total > 0 ==> pct * total as real == 100.0 * count as real
    ensures count <= total ==> 0.0 <= pct <= 100.0
  {
    var r := Rate(count, total);
    assert total > 0 ==> (100.0 * r) * total as real == 100.0 * (r * total as real);
    100.0 * r
  }

  /** The response of `getStatsByMerchant` and `getStatsByPaymentMethod`. */
  datatype StatusStats = StatusStats(
    total: nat,
    approved: nat,
    declined: nat,
    errors: nat,
    timeouts: nat,
    approvalRate: real,
    avgLatencyMs: int)

  /** The counts over an already selected set of transactions. */
  function StatsOf(txs: seq<Transaction>): (st: StatusStats)
    ensures st.total == |txs|
    ensures st.approved == CountStatus(txs, Approved) && st.declined == CountStatus(txs, Declined)
    ensures st.errors == CountStatus(txs, ErrorStatus) && st.timeouts == CountStatus(txs, Timeout)
  {
    var approved := CountStatus(txs, Approved);
    StatusStats(
      |txs|,
      approved,
      CountStatus(txs, Declined),
      CountStatus(txs, ErrorStatus),
      CountStatus(txs, Timeout),
      Percent(approved, |txs|),
      Round(AverageLatency(txs)))
  }

  function GetStatsByMerchant(txs: seq<Transaction>, merchantId: string, p: Period): StatusStats
  {
    StatsOf(Filter(txs, MerchantScope(merchantId, p)))
  }

  function GetStatsByPaymentMethod(txs: seq<Transaction>, methodId: string, p: Period): StatusStats
  {
    StatsOf(Filter(txs, MethodScope(methodId, p)))
  }

  /** A transaction of another merchant, or outside the period, does not change the merchant's statistics. */
  lemma MerchantStatsScoped(txs: seq<Transaction>, tx: Transaction, merchantId: string, p: Period)
    requires tx.merchant_id != merchantId || !InPeriod(tx, p)
    ensures GetStatsByMerchant(txs + [tx], merchantId, p) == GetStatsByMerchant(txs, merchantId, p)
  {
    assert (txs + [tx])[..|txs|] == txs;
    assert Filter(txs + [tx], MerchantScope(merchantId, p)) == Filter(txs, MerchantScope(merchantId, p));
  }

  /** A transaction of another payment method, or outside the period, does not change that method's statistics. */
  lemma MethodStatsScoped(txs: seq<Transaction>, tx: Transaction, methodId: string, p: Period)
    requires tx.method_id != methodId || !InPeriod(tx, p)
    ensures GetStatsByPaymentMethod(txs + [tx], methodId, p) == GetStatsByPaymentMethod(txs, methodId, p)
  {
    assert (txs + [tx])[..|txs|] == txs;
    assert Filter(txs + [tx], MethodScope(methodId, p)) == Filter(txs, MethodScope(methodId, p));
  }

  /** The response of `getStatsByProvider`. */
  datatype ProviderStats = ProviderStats(total: nat, approved: nat, errors: nat, errorRate: real)

  /** Provider statistics count `error` only; timeouts are not errors here. */
  function GetStatsByProvider(txs: seq<Transaction>, providerId: string, p: Period): (st: ProviderStats)
    ensures st.total == Count(txs, ProviderScope(providerId, p))
    ensures st.approved + st.errors <= st.total
  {
    var sel := Filter(txs, ProviderScope(providerId, p));
    var errors := CountStatus(sel, ErrorStatus);
    CountStatusDisjoint(sel, Approved, ErrorStatus);
    ProviderStats(|sel|, CountStatus(sel, Approved), errors, Percent(errors, |sel|))
  }

  predicate KnownStatus(tx: Transaction)
  {
    tx.status == Approved || tx.status == Declined || tx.status == ErrorStatus || tx.status == Timeout
  }

  /** When every status is one of the four enum values, the four counts add up to the total. */
  lemma {:induction false} StatusCountsAddUp(txs: seq<Transaction>)
    requires forall i :: 0 <= i < |txs| ==> KnownStatus(txs[i])
    ensures var st := StatsOf(txs); st.approved + st.declined + st.errors + st.timeouts == st.total
    decreases |txs|
  {
    if |txs| > 0 {
      var init := txs[..|txs| - 1];
      StatusCountsAddUp(init);
      assert KnownStatus(txs[|txs| - 1]);
    }
  }

  /** `approvalRate` is a percentage: 0 with no transactions, else 100·approved/total. */
  lemma ApprovalRatePercentage(txs: seq<Transaction>)
    ensures 0.0 <= StatsOf(txs).approvalRate <= 100.0
    ensures |txs| == 0 ==> StatsOf(txs).approvalRate == 0.0
    ensures |txs| > 0 ==> StatsOf(txs).approvalRate * |txs| as real == 100.0 * StatsOf(txs).approved as real
  {
    var st := StatsOf(txs);
    var pct := Percent(st.approved, st.total);
    assert st.approvalRate == pct;
  }

  /** The provider `errorRate` is a percentage of `error` transactions, 0 with none. */
  lemma ProviderErrorRatePercentage(txs: seq<Transaction>, providerId: string, p: Period)
    ensures 0.0 <= GetStatsByProvider(txs, providerId, p).errorRate <= 100.0
    ensures GetStatsByProvider(txs, providerId, p).total == 0 ==> GetStatsByProvider(txs, providerId, p).errorRate == 0.0
    ensures GetStatsByProvider(txs, providerId, p).total > 0 ==>
      GetStatsByProvider(txs, providerId, p).errorRate * GetStatsByProvider(txs, providerId, p).total as real ==
      100.0 * GetStatsByProvider(txs, providerId, p).errors as real
  {
    var st := GetStatsByProvider(txs, providerId, p);
    assert st.errorRate == Percent(st.errors, st.total);
  }

  /** A timeout leaves the provider's error count and total-independent counts unchanged. */
  lemma ProviderIgnoresTimeouts(txs: seq<Transaction>, tx: Transaction, providerId: string, p: Period)
    requires tx.status == Timeout
    ensures GetStatsByProvider(txs + [tx], providerId, p).errors == GetStatsByProvider(txs, providerId, p).errors
    ensures GetStatsByProvider(txs + [tx], providerId, p).approved == GetStatsByProvider(txs, providerId, p).approved
  {
    var scope := ProviderScope(providerId, p);
    FilterAppend(txs, [tx], scope);
    assert Filter([tx], scope) == if scope(tx) then [tx] else [] by {
      assert [tx][..0] == [];
    }
    if scope(tx) {
      CountStatusSnoc(Filter(txs, scope), tx, ErrorStatus);
      CountStatusSnoc(Filter(txs, scope), tx, Approved);
    } else {
      assert Filter(txs + [tx], scope) == Filter(txs, scope);
    }
  }

  /** With at least one truthy latency, the average lies between the smallest and largest of them. */
  lemma AverageLatencyBounded(txs: seq<Transaction>, lo: real, hi: real)
    requires Count(txs, HasLatency) > 0
    requires forall i :: 0 <= i < |TruthyLatencies(txs)| ==> lo <= TruthyLatencies(txs)[i] <= hi
    ensures lo <= AverageLatency(txs) <= hi
  {
    MeanBounded(TruthyLatencies(txs), lo, hi);
  }

  /** A transaction with no latency, or latency 0, does not move the average. */
  lemma MissingLatencyIgnored(txs: seq<Transaction>, tx: Transaction)
    requires !HasLatency(tx)
    ensures AverageLatency(txs + [tx]) == AverageLatency(txs)
  {
    assert (txs + [tx])[..|txs + [tx]| - 1] == txs;
    assert Filter(txs + [tx], HasLatency) == Filter(txs, HasLatency);
    assert TruthyLatencies(txs + [tx]) == TruthyLatencies(txs);
  }

  // ---------------------------------------------------------------------------
  // Expected versus actual approved transactions per day.
  // ---------------------------------------------------------------------------

  const DAY_MS: int := 86_400_000

  /** The UTC day number of a timestamp (`date_trunc('day', ...)`). */
  function Day(date: int): int
  {
    date / DAY_MS
  }

  /** The filters of `buildApprovedAggQuery`; an empty country code adds no filter. */
  datatype SeriesFilters = SeriesFilters(
    merchant_id: string,
    provider_id: Option<string>,
    method_id: Option<string>,
    country_code: Option<string>)

  predicate MatchesFilters(tx: Transaction, f: SeriesFilters)
  {
    tx.status == Approved &&
    tx.merchant_id == f.merchant_id &&
    (f.provider_id.Some? ==> tx.provider_id == f.provider_id.value) &&
    (f.method_id.Some? ==> tx.method_id == f.method_id.value) &&
    (f.country_code.Some? && f.country_code.value != "" ==> tx.country_code == f.country_code.value)
  }

  /** Approved transactions matching the filters on UTC day `d`. */
  function ApprovedOn(txs: seq<Transaction>, f: SeriesFilters, d: int): nat
  {
    Count(txs, (tx: Transaction) => MatchesFilters(tx, f) && Day(tx.date) == d)
  }

  /**
   * The rows the grouped query returns for days `[start, end)`: one
   * `(day, approved)` row per day that has approved transactions, ascending.
   */
  function AggregateRows(txs: seq<Transaction>, f: SeriesFilters, start: int, end: int): (rows: seq<(int, nat)>)
    ensures forall i :: 0 <= i < |rows| ==>
      start <= rows[i].0 < end && rows[i].1 == ApprovedOn(txs, f, rows[i].0) && rows[i].1 > 0
    ensures forall d :: start <= d < end && ApprovedOn(txs, f, d) > 0 ==> (d, ApprovedOn(txs, f, d)) in rows
    decreases end - start
  {
    if start >= end then []
    else
      var n := ApprovedOn(txs, f, start);
      (if n > 0 then [(start, n)] else []) + AggregateRows(txs, f, start + 1, end)
  }

  /** `getApprovedDailySeries`: the rows loaded into a day → count map. */
  method ApprovedDailySeries(txs: seq<Transaction>, f: SeriesFilters, start: int, end: int)
    returns (daily: map<int, nat>)
    ensures forall d :: d in daily <==> start <= d < end && ApprovedOn(txs, f, d) > 0
    ensures forall d :: d in daily ==> daily[d] == ApprovedOn(txs, f, d)
  {
    var rows := AggregateRows(txs, f, start, end);
    daily := map[];
    for i := 0 to |rows|
      invariant forall d :: d in daily ==> start <= d < end && daily[d] == ApprovedOn(txs, f, d) && daily[d] > 0
      invariant forall j :: 0 <= j < i ==> rows[j].0 in daily
    {
      daily := daily[rows[i].0 := rows[i].1];
    }
    forall d | start <= d < end && ApprovedOn(txs, f, d) > 0
      ensures d in daily
    {
      var j :| 0 <= j < |rows| && rows[j] == (d, ApprovedOn(txs, f, d));
    }
  }

  /** `map.get(key) ?? 0`. */
  function GetOrZero(m: map<int, nat>, key: int): nat
  {
    if key in m then m[key] else 0
  }

  datatype SeriesPoint = SeriesPoint(date: int, actual: nat, expected: nat)

  /** The response of `getApprovedExpectedVsActual`; `from`/`to` are day numbers, `to` exclusive. */
  datatype ExpectedVsActual = ExpectedVsActual(
    filters: SeriesFilters,
    from: int,
    to: int,
    weeks_history: nat,
    series: seq<SeriesPoint>)

  /** The cursor loop: one point per day of `[from, to)`, each read from the two day → count maps. */
  method SeriesOf(actualMap: map<int, nat>, prevMap: map<int, nat>, from: int, to: int) returns (series: seq<SeriesPoint>)
    requires from <= to
    ensures |series| == to - from
    ensures forall i :: 0 <= i < |series| ==>
      series[i] == SeriesPoint(from + i, GetOrZero(actualMap, from + i), GetOrZero(prevMap, from + i - 7))
  {
    series := [];
    var cursor := from;
    while cursor < to
      invariant from <= cursor <= to
      invariant |series| == cursor - from
      invariant forall i :: 0 <= i < |series| ==>
        series[i] == SeriesPoint(from + i, GetOrZero(actualMap, from + i), GetOrZero(prevMap, from + i - 7))
    {
      series := series + [SeriesPoint(cursor, GetOrZero(actualMap, cursor), GetOrZero(prevMap, cursor - 7))];
      cursor := cursor + 1;
    }
  }

  /**
   * `getApprovedExpectedVsActual` for UTC day `today`: the seven days ending
   * today, each with its approved count and the count seven days earlier.
   */
  method GetApprovedExpectedVsActual(txs: seq<Transaction>, f: SeriesFilters, today: int)
    returns (res: ExpectedVsActual)
    ensures res.weeks_history == 1 && res.filters == f
    ensures res.from == today - 6 && res.to == today + 1
    ensures |res.series| == 7
    ensures forall i :: 0 <= i < 7 ==>
      res.series[i].date == today - 6 + i &&
      res.series[i].actual == ApprovedOn(txs, f, today - 6 + i) &&
      res.series[i].expected == ApprovedOn(txs, f, today - 13 + i)
  {
    var weeksHistory := 1;
    var from := today - 6;
    var to := today + 1;
    var actualMap := ApprovedDailySeries(txs, f, from, to);
    var prevMap := ApprovedDailySeries(txs, f, from - 7, to - 7);
    var series := SeriesOf(actualMap, prevMap, from, to);
    res := ExpectedVsActual(f, from, to, weeksHistory, series);
  }

  /** The series days are consecutive and ascending. */
  lemma SeriesConsecutive(s: seq<SeriesPoint>, today: int)
    requires |s| == 7 && forall i :: 0 <= i < 7 ==> s[i].date == today - 6 + i
    ensures forall i :: 0 < i < |s| ==> s[i].date == s[i - 1].date + 1
    ensures s[0].date == today - 6 && s[6].date == today
  {
  }
}
