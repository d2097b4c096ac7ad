/**
 * The per-group reductions shared by the failure-prediction and the
 * health-graph services: approval rate, error rate and p95 latency.
 */
module RateMetrics {
  import opened Wrappers
  import opened Seqs
  import opened Sorting
  import opened Entities

  predicate IsApproved(t: Transaction)
  {
    t.status == Approved
  }

  /** An `error` or a `timeout` counts as a failure. */
  predicate IsFailed(t: Transaction)
  {
    t.status == ErrorStatus || t.status == Timeout
  }

  /** `total > 0 ? count / total : 0`. */
  function Rate(count: nat, total: nat): (r: real)
    ensures total == 0 ==> r == 0.0
    ensures total > 0 ==> r * total as real == count as real
    ensures count <= total ==> 0.0 <= r <= 1.0
  {
    if total > 0 then count as real / total as real else 0.0
  }

  function ApprovalRate(txs: seq<Transaction>): (r: real)
    ensures 0.0 <= r <= 1.0
    ensures |txs| == 0 ==> r == 0.0
    ensures |txs| > 0 ==> r * |txs| as real == Count(txs, IsApproved) as real
  {
    Rate(Count(txs, IsApproved), |txs|)
  }

  function ErrorRate(txs: seq<Transaction>): (r: real)
    ensures 0.0 <= r <= 1.0
    ensures |txs| == 0 ==> r == 0.0
    ensures |txs| > 0 ==> r * |txs| as real == Count(txs, IsFailed) as real
  {
    Rate(Count(txs, IsFailed), |txs|)
  }

  /** An approved transaction is never a failure, so the two rates never exceed 1 together. */
  lemma RatesDisjoint(txs: seq<Transaction>)
    ensures ApprovalRate(txs) + ErrorRate(txs) <= 1.0
  {
    CountDisjoint(txs, IsApproved, IsFailed);
    RateAdd(Count(txs, IsApproved), Count(txs, IsFailed), |txs|);
  }

  lemma RateAdd(c1: nat, c2: nat, total: nat)
    ensures Rate(c1, total) + Rate(c2, total) == Rate(c1 + c2, total)
  {
    if total > 0 {
      var n := total as real;
      assert c1 as real / n + c2 as real / n == (c1 + c2) as real / n;
    }
  }

  /** `Math.round`: halves round up. */
  function Round(x: real): int
  {
    (x + 0.5).Floor
  }

  /** `t.latency_ms || 0`. */
  function LatencyOrZero(t: Transaction): int
  {
    match t.latency_ms
    case Some(l) => l
    case None => 0
  }

  function Latencies(txs: seq<Transaction>): (ls: seq<int>)
    ensures |ls| == |txs|
    ensures forall i :: 0 <= i < |txs| ==> ls[i] == LatencyOrZero(txs[i])
  {
    seq(|txs|, i requires 0 <= i < |txs| => LatencyOrZero(txs[i]))
  }

  /** `Math.ceil`. */
  function Ceil(x: real): (c: int)
    ensures x <= c as real < x + 1.0
  {
    -((-x).Floor)
  }

  /** `Math.max(0, Math.ceil(0.95 * n) - 1)`, computed exactly. */
  function P95Index(n: nat): nat
  {
    var i := Ceil(0.95 * n as real) - 1;
    if i > 0 then i else 0
  }

  lemma P95IndexInRange(n: nat)
    requires n >= 1
    ensures P95Index(n) < n
  {
  }

  lemma P95IndexExamples()
    ensures P95Index(0) == 0 && P95Index(1) == 0
    ensures P95Index(10) == 9 && P95Index(20) == 18 && P95Index(100) == 94
  {
    assert Ceil(0.95 * 10.0) == 10 by { assert 0.95 * 10.0 == 9.5; }
    assert Ceil(0.95 * 20.0) == 19 by { assert 0.95 * 20.0 == 19.0; }
    assert Ceil(0.95 * 100.0) == 95 by { assert 0.95 * 100.0 == 95.0; }
  }

  function IntKey(x: int): real
  {
    x as real
  }

  /** Ascending latencies, read at the p95 index; 0 for an empty group. */
  function P95Latency(txs: seq<Transaction>): (p: int)
    ensures |txs| == 0 ==> p == 0
    ensures |txs| > 0 ==> p in Latencies(txs)
  {
    var sorted := SortBy(Latencies(txs), IntKey);
    var i := P95Index(|sorted|);
    if i < |sorted| then
      assert sorted[i] in multiset(sorted);
      sorted[i]
    else 0
  }

  /** The p95 value splits the sorted latencies: everything before it is no larger, everything after no smaller. */
  lemma P95Splits(txs: seq<Transaction>)
    requires |txs| > 0
    ensures var sorted := SortBy(Latencies(txs), IntKey);
            var i := P95Index(|txs|);
            i < |txs| && sorted[i] == P95Latency(txs) &&
            (forall j :: 0 <= j <= i ==> sorted[j] <= P95Latency(txs)) &&
            (forall j :: i <= j < |txs| ==> P95Latency(txs) <= sorted[j])
  {
    var sorted := SortBy(Latencies(txs), IntKey);
    var i := P95Index(|txs|);
    SortBySorted(Latencies(txs), IntKey);
    P95IndexInRange(|txs|);
    assert sorted[i] == P95Latency(txs);
    forall j | 0 <= j <= i
      ensures sorted[j] <= sorted[i]
    {
      if j < i {
        assert IntKey(sorted[j]) <= IntKey(sorted[i]);
      }
    }
    forall j | i <= j < |txs|
      ensures sorted[i] <= sorted[j]
    {
      if i < j {
        assert IntKey(sorted[i]) <= IntKey(sorted[j]);
      }
    }
  }
}
