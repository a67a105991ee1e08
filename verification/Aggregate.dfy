/** Aggregation of a run outcome into one baseline-versus-candidate comparison per metric. */
module Aggregate {
  import opened Basics
  import opened Sequences
  import opened Domain
  import opened Observations
  import opened Ranks
  import Bootstrap

  // ----- Rates -----

  /** The value of a rate over one version's runs. */
  function RateValue(rate: Rate, runs: seq<Run>, results: map<string, CaseResult>): real {
    Mean(ObsSeq(rate, runs, results))
  }

  function SuccessCount(runs: seq<Run>): nat {
    if runs == [] then 0
    else SuccessCount(runs[..|runs| - 1]) + if runs[|runs| - 1].error.None? then 1 else 0
  }

  /** `_success_rate`. */
  function SuccessRateOf(runs: seq<Run>): real {
    if runs == [] then 0.0 else SuccessCount(runs) as real / |runs| as real
  }

  lemma ObsSnoc(rate: Rate, runs: seq<Run>, n: nat, results: map<string, CaseResult>)
    requires n < |runs|
    ensures Sum(ObsSeq(rate, runs[..n + 1], results))
        == Sum(ObsSeq(rate, runs[..n], results)) + Obs(rate, runs[n], results)
  {
    assert ObsSeq(rate, runs[..n + 1], results)[..n] == ObsSeq(rate, runs[..n], results);
  }

  lemma {:induction false} SuccessRateIsMean(runs: seq<Run>, results: map<string, CaseResult>)
    ensures SuccessCount(runs) as real == Sum(ObsSeq(SuccessRate, runs, results))
    ensures SuccessRateOf(runs) == RateValue(SuccessRate, runs, results)
  {
    if runs != [] {
      var n := |runs| - 1;
      SuccessRateIsMean(runs[..n], results);
      ObsSnoc(SuccessRate, runs, n, results);
      assert runs[..n + 1] == runs;
    }
  }

  lemma ReadableSnoc(rate: Rate, runs: seq<Run>, n: nat, results: map<string, CaseResult>)
    requires n < |runs|
    ensures AllReadable(rate, runs[..n + 1], results) <==>
        AllReadable(rate, runs[..n], results) && Readable(rate, runs[n], results)
    ensures !Readable(rate, runs[n], results) ==> !AllReadable(rate, runs, results)
  {
    assert runs[..n + 1] == runs[..n] + [runs[n]];
  }

  /** The dictionary lookup both loops below make for a successful run. */
  method FindScore(run: Run, results: map<string, CaseResult>, evaluator: string) returns (r: Result<EvaluatorScore>)
    ensures r.Ok? <==> ScoreOf(run, results, evaluator).Some?
    ensures r.Ok? ==> ScoreOf(run, results, evaluator) == Some(r.value)
  {
    if run.id !in results {
      return Err(OtherError("KeyError"));
    }
    LookupsAgree(results[run.id].scores, evaluator);
    var score := LastScoreNamed(results[run.id].scores, evaluator);
    r := if score.None? then Err(ConfigError) else Ok(score.value);
  }

  /** `_pass_rate`: counts passed runs; the denominator includes failed ones. */
  method PassRateOf(runs: seq<Run>, results: map<string, CaseResult>, evaluator: string) returns (r: Result<real>)
    ensures r.Ok? <==> AllReadable(PassRate(evaluator), runs, results)
    ensures r.Ok? ==> r.value == RateValue(PassRate(evaluator), runs, results)
  {
    var rate := PassRate(evaluator);
    var passed: nat := 0;
    for i := 0 to |runs|
      invariant AllReadable(rate, runs[..i], results)
      invariant passed as real == Sum(ObsSeq(rate, runs[..i], results))
    {
      var run := runs[i];
      ObsSnoc(rate, runs, i, results);
      ReadableSnoc(rate, runs, i, results);
      if run.error.None? {
        var score := FindScore(run, results, evaluator);
        if score.Err? {
          return Err(score.error);
        }
        if score.value.passed == Some(true) {
          passed := passed + 1;
        }
      }
    }
    assert runs[..|runs|] == runs;
    r := Ok(if runs == [] then 0.0 else passed as real / |runs| as real);
  }

  /** `_mean_score`: a failed run adds nothing but counts in the denominator. */
  method MeanScoreOf(runs: seq<Run>, results: map<string, CaseResult>, evaluator: string) returns (r: Result<real>)
    ensures r.Ok? <==> AllReadable(MeanScore(evaluator), runs, results)
    ensures r.Ok? ==> r.value == RateValue(MeanScore(evaluator), runs, results)
  {
    var rate := MeanScore(evaluator);
    var total := 0.0;
    for i := 0 to |runs|
      invariant AllReadable(rate, runs[..i], results)
      invariant total == Sum(ObsSeq(rate, runs[..i], results))
    {
      var run := runs[i];
      ObsSnoc(rate, runs, i, results);
      ReadableSnoc(rate, runs, i, results);
      if run.error.None? {
        var score := FindScore(run, results, evaluator);
        if score.Err? {
          return Err(score.error);
        }
        total := total + score.value.score;
      }
    }
    assert runs[..|runs|] == runs;
    r := Ok(if runs == [] then 0.0 else total / |runs| as real);
  }

  // ----- Latency and cost -----

  /** Latencies of the runs that succeeded. */
  function SuccessfulLatencies(runs: seq<Run>): seq<real> {
    if runs == [] then []
    else
      var rest, r := SuccessfulLatencies(runs[..|runs| - 1]), runs[|runs| - 1];
      if r.error.None? then rest + [r.usage.latencyMs] else rest
  }

  function LatencyMean(runs: seq<Run>): real { Mean(SuccessfulLatencies(runs)) }

  /** Nearest-rank 95th percentile of a sample; zero for an empty one. */
  function P95(values: seq<real>): real { NearestRank(Sort(values, RealLeq)) }

  function NearestRank(ordered: seq<real>): real {
    if ordered == [] then 0.0
    else
      RankInRange(|ordered|);
      ordered[Rank95(|ordered|) - 1]
  }

  function Rank95(n: nat): int { Bootstrap.Ceil(0.95 * n as real) }

  lemma RankInRange(n: nat)
    requires n > 0
    ensures 1 <= Rank95(n) <= n
    ensures 0.95 * n as real <= Rank95(n) as real < 0.95 * n as real + 1.0
  {
  }

  function LatencyP95(runs: seq<Run>): real { P95(SuccessfulLatencies(runs)) }

  function Costs(runs: seq<Run>): (s: seq<real>)
    ensures |s| == |runs|
    ensures forall i :: 0 <= i < |s| ==> s[i] == runs[i].usage.costUsd
  {
    seq(|runs|, i requires 0 <= i < |runs| => runs[i].usage.costUsd)
  }

  function CostTotal(runs: seq<Run>): real { Sum(Costs(runs)) }

  lemma SortedRank(s: seq<real>)
    requires Sorted(s, RealLeq) && s != []
    ensures NearestRank(s) in s
    ensures CountAtMost(s, NearestRank(s)) as real >= 0.95 * |s| as real
    ensures CountBelow(s, NearestRank(s)) as real < 0.95 * |s| as real
  {
    RankInRange(|s|);
    SortedCounts(s, Rank95(|s|) - 1);
  }

  /** The 95th percentile is the nearest-rank one: it occurs in the sample, at least 95% of the
      sample is at most it, less than 95% is below it, and the order of the sample is immaterial. */
  lemma P95IsNearestRank(values: seq<real>, reordered: seq<real>)
    requires values != [] && multiset(values) == multiset(reordered)
    ensures var p := P95(values);
            && p in values
            && CountAtMost(values, p) as real >= 0.95 * |values| as real
            && CountBelow(values, p) as real < 0.95 * |values| as real
            && P95(reordered) == p
  {
    var s := Sort(values, RealLeq);
    SortPermutes(values, RealLeq);
    RealLeqTotal();
    SortSorts(values, RealLeq);
    SortedRank(s);
    CountsOfSort(values, P95(values));
    P95ForgetsOrder(values, reordered);
  }

  /** `v` is the nearest-rank 95th percentile of the latencies of the runs that succeeded; zero if none did. */
  ghost predicate IsP95(v: real, runs: seq<Run>) {
    var values := SuccessfulLatencies(runs);
    if values == [] then v == 0.0
    else
      v in values && CountAtMost(values, v) as real >= 0.95 * |values| as real > CountBelow(values, v) as real
  }

  lemma LatencyP95IsP95(runs: seq<Run>)
    ensures IsP95(LatencyP95(runs), runs)
  {
    if SuccessfulLatencies(runs) != [] {
      P95IsNearestRank(SuccessfulLatencies(runs), SuccessfulLatencies(runs));
    }
  }

  lemma IsP95Unique(v: real, v': real, runs: seq<Run>)
    requires IsP95(v, runs) && IsP95(v', runs)
    ensures v == v'
  {
    if v < v' {
      CountsSeparate(SuccessfulLatencies(runs), v, v');
    } else if v' < v {
      CountsSeparate(SuccessfulLatencies(runs), v', v);
    }
  }

  /** What all the runs cost, failed ones included, added up. */
  function AccumulatedCost(runs: seq<Run>): real {
    if runs == [] then 0.0 else AccumulatedCost(runs[..|runs| - 1]) + runs[|runs| - 1].usage.costUsd
  }

  lemma {:induction false} CostTotalIsAccumulated(runs: seq<Run>)
    ensures CostTotal(runs) == AccumulatedCost(runs)
  {
    if runs != [] {
      CostTotalIsAccumulated(runs[..|runs| - 1]);
      assert Costs(runs)[..|runs| - 1] == Costs(runs[..|runs| - 1]);
    }
  }

  lemma P95ForgetsOrder(values: seq<real>, reordered: seq<real>)
    requires multiset(values) == multiset(reordered)
    ensures P95(values) == P95(reordered)
  {
    SameMultisetSameLength(values, reordered);
    RealLeqTotal();
    SortForgetsOrder(values, reordered, RealLeq);
  }

  // ----- Validation -----

  /** What aggregation demands of an outcome. */
  ghost predicate ValidOutcome(x: Experiment, o: RunOutcome, names: seq<string>) {
    && |o.runs| == |o.caseResults|
    && (forall i, j :: 0 <= i < j < |o.runs| ==> o.runs[i].id != o.runs[j].id)
    && (forall i :: 0 <= i < |o.runs| ==> o.caseResults[i].runId == o.runs[i].id)
    && NoDup(names)
    && forall i :: 0 <= i < |o.runs| ==> ValidRun(x, o.runs[i], o.caseResults[i], names)
  }

  predicate ValidRun(x: Experiment, run: Run, scored: CaseResult, names: seq<string>) {
    && run.experimentId == x.id
    && run.versionId in {x.baselineVersionId, x.candidateVersionId}
    && (run.error.None? ==> forall n :: n in names ==>
         exists i :: 0 <= i < |scored.scores| && scored.scores[i].evaluator == n)
  }

  /** `_validate_outcome`: raise on the first thing that is wrong. */
  method ValidateOutcome(x: Experiment, o: RunOutcome, names: seq<string>) returns (failure: Option<Error>)
    ensures failure.None? <==> ValidOutcome(x, o, names)
    ensures failure.Some? ==> failure.value == ConfigError
  {
    var runs, results := o.runs, o.caseResults;
    if |runs| != |results| {
      return Some(ConfigError);
    }
    if exists i, j :: 0 <= i < j < |runs| && runs[i].id == runs[j].id {
      return Some(ConfigError);
    }
    for i := 0 to |runs|
      invariant forall k :: 0 <= k < i ==> results[k].runId == runs[k].id
    {
      if results[i].runId != runs[i].id {
        return Some(ConfigError);
      }
    }
    if exists i, j :: 0 <= i < j < |names| && names[i] == names[j] {
      return Some(ConfigError);
    }
    for i := 0 to |runs|
      invariant forall k :: 0 <= k < i ==> ValidRun(x, runs[k], results[k], names)
    {
      if !ValidRun(x, runs[i], results[i], names) {
        return Some(ConfigError);
      }
    }
    return None;
  }

  /** In a valid outcome each run finds its own case result, and every rate can be read. */
  lemma ValidOutcomeReadable(x: Experiment, o: RunOutcome, names: seq<string>, rate: Rate, version: string)
    requires ValidOutcome(x, o, names)
    requires rate.SuccessRate? || rate.evaluator in names
    ensures AllReadable(rate, RunsOf(o.runs, version), ResultsByRun(o.caseResults))
    ensures forall i :: 0 <= i < |o.runs| ==>
              && o.runs[i].id in ResultsByRun(o.caseResults)
              && ResultsByRun(o.caseResults)[o.runs[i].id] == o.caseResults[i]
  {
    var results := ResultsByRun(o.caseResults);
    ResultsByRunFacts(o.caseResults);
    var mine := RunsOf(o.runs, version);
    RunsOfMembers(o.runs, version);
    forall k | 0 <= k < |mine|
      ensures Readable(rate, mine[k], results)
    {
      assert mine[k] in o.runs;
      var i :| 0 <= i < |o.runs| && o.runs[i] == mine[k];
      assert ValidRun(x, o.runs[i], o.caseResults[i], names);
      if !rate.SuccessRate? {
        ScoreNamedFacts(o.caseResults[i].scores, rate.evaluator);
      }
    }
  }

  // ----- The metrics -----

  function RateComparison(x: Experiment, o: RunOutcome, rate: Rate): MetricComparison {
    var results := ResultsByRun(o.caseResults);
    MetricComparison(
      rate.Name(),
      RateValue(rate, RunsOf(o.runs, x.baselineVersionId), results),
      RateValue(rate, RunsOf(o.runs, x.candidateVersionId), results))
  }

  function RateComparisons(x: Experiment, o: RunOutcome, rates: seq<Rate>): (ms: seq<MetricComparison>)
    ensures |ms| == |rates|
    ensures forall i :: 0 <= i < |ms| ==> ms[i] == RateComparison(x, o, rates[i])
  {
    seq(|rates|, i requires 0 <= i < |rates| => RateComparison(x, o, rates[i]))
  }

  function UsageComparisons(x: Experiment, o: RunOutcome): seq<MetricComparison> {
    var b, c := RunsOf(o.runs, x.baselineVersionId), RunsOf(o.runs, x.candidateVersionId);
    [MetricComparison("latency_ms.mean", LatencyMean(b), LatencyMean(c)),
     MetricComparison("latency_ms.p95", LatencyP95(b), LatencyP95(c)),
     MetricComparison("cost_usd.total", CostTotal(b), CostTotal(c))]
  }

  /** Every metric of an outcome, in emission order. */
  function Metrics(x: Experiment, o: RunOutcome, names: seq<string>): seq<MetricComparison> {
    RateComparisons(x, o, Rates(names)) + UsageComparisons(x, o)
  }

  const USAGE_METRICS: seq<string> := ["latency_ms.mean", "latency_ms.p95", "cost_usd.total"]

  /** `expected_metric_names`. */
  function ExpectedMetricNames(names: seq<string>): seq<string> {
    RateNames(Rates(names)) + USAGE_METRICS
  }

  function RateNames(rates: seq<Rate>): (s: seq<string>)
    ensures |s| == |rates|
    ensures forall i :: 0 <= i < |s| ==> s[i] == rates[i].Name()
  {
    seq(|rates|, i requires 0 <= i < |rates| => rates[i].Name())
  }

  lemma SuffixInjective(a: string, b: string, suffix: string)
    ensures a + suffix == b + suffix ==> a == b
  {
    if a + suffix == b + suffix {
      assert |a + suffix| == |a| + |suffix| && |b + suffix| == |b| + |suffix|;
      assert a == (a + suffix)[..|a|] && b == (b + suffix)[..|b|];
    }
  }

  lemma NameTail(s: string, suffix: string, k: nat)
    requires k < |suffix|
    ensures (s + suffix)[|s + suffix| - 1 - k] == suffix[|suffix| - 1 - k]
  {
  }

  lemma RateNameEnds(rate: Rate)
    ensures var n := rate.Name();
            && |n| >= 10
            && n[|n| - 1] == 'e'
            && (n[|n| - 2] == if rate.MeanScore? then 'r' else 't')
            && (n[|n| - 8] == match rate { case SuccessRate => 'e' case _ => 'a' })
  {
    match rate
    case SuccessRate =>
    case PassRate(e) =>
      NameTail(e, ".pass_rate", 0);
      NameTail(e, ".pass_rate", 1);
      NameTail(e, ".pass_rate", 7);
    case MeanScore(e) =>
      NameTail(e, ".mean_score", 0);
      NameTail(e, ".mean_score", 1);
      NameTail(e, ".mean_score", 7);
  }

  lemma SameNameSameKind(a: Rate, b: Rate)
    requires a.Name() == b.Name()
    ensures a.SuccessRate? == b.SuccessRate? && a.PassRate? == b.PassRate?
  {
    RateNameEnds(a);
    RateNameEnds(b);
  }

  /** Different rates never share a metric name. */
  lemma RateNamesDiffer(a: Rate, b: Rate)
    ensures a.Name() == b.Name() ==> a == b
  {
    if a.Name() == b.Name() {
      SameNameSameKind(a, b);
      if !a.SuccessRate? {
        SuffixInjective(a.evaluator, b.evaluator, if a.PassRate? then ".pass_rate" else ".mean_score");
      }
    }
  }

  /** No rate takes the name of a usage metric. */
  lemma RateNameIsNotUsage(a: Rate)
    ensures a.Name() !in USAGE_METRICS
  {
    RateNameEnds(a);
    forall k | 0 <= k < |USAGE_METRICS|
      ensures var m := USAGE_METRICS[k]; m[|m| - 1] != 'e'
    {
      assert USAGE_METRICS[k]
          == if k == 0 then "latency_ms.mean" else if k == 1 then "latency_ms.p95" else "cost_usd.total";
    }
  }

  lemma {:induction false} RatesMembers(names: seq<string>)
    ensures forall r :: r in Rates(names) <==> r.SuccessRate? || r.evaluator in names
  {
    if names != [] {
      var before, n := names[..|names| - 1], names[|names| - 1];
      RatesMembers(before);
      assert names == before + [n];
      var rates := Rates(before);
      forall r
        ensures r in rates + [PassRate(n), MeanScore(n)] <==> r in rates || r == PassRate(n) || r == MeanScore(n)
      {
      }
      assert forall m :: m in names <==> m in before || m == n;
    }
  }

  lemma {:induction false} RatesDistinct(names: seq<string>)
    requires NoDup(names)
    ensures NoDup(Rates(names))
  {
    if names != [] {
      var before, n := names[..|names| - 1], names[|names| - 1];
      RatesDistinct(before);
      RatesMembers(before);
      assert n !in before;
      NoDupTwoMore(Rates(before), PassRate(n), MeanScore(n));
    }
  }

  lemma NoDupTwoMore<T>(s: seq<T>, x: T, y: T)
    requires NoDup(s) && x !in s && y !in s && x != y
    ensures NoDup(s + [x, y])
  {
  }

  /** The emitted names are pairwise distinct. */
  lemma MetricNamesDistinct(names: seq<string>)
    requires NoDup(names)
    ensures NoDup(ExpectedMetricNames(names))
  {
    RatesDistinct(names);
    var rates, all := Rates(names), ExpectedMetricNames(names);
    forall i, j | 0 <= i < j < |all|
      ensures all[i] != all[j]
    {
      if j < |rates| {
        RateNamesDiffer(rates[i], rates[j]);
      } else if i < |rates| {
        RateNameIsNotUsage(rates[i]);
        assert all[j] == USAGE_METRICS[j - |rates|];
      } else {
        assert all[i] == USAGE_METRICS[i - |rates|] && all[j] == USAGE_METRICS[j - |rates|];
      }
    }
  }

  lemma MetricsNamed(x: Experiment, o: RunOutcome, names: seq<string>)
    ensures var ms := Metrics(x, o, names);
            && |ms| == |ExpectedMetricNames(names)|
            && forall i :: 0 <= i < |ms| ==> ms[i].metric == ExpectedMetricNames(names)[i]
  {
  }

  /** The rows of latency and cost compare these values of the two versions, the baseline's first. */
  ghost predicate UsageCompared(x: Experiment, o: RunOutcome, mc: MetricComparison) {
    var b, c := RunsOf(o.runs, x.baselineVersionId), RunsOf(o.runs, x.candidateVersionId);
    && (mc.metric == "latency_ms.mean" ==>
          mc.baselineValue == Mean(SuccessfulLatencies(b)) && mc.candidateValue == Mean(SuccessfulLatencies(c)))
    && (mc.metric == "latency_ms.p95" ==> IsP95(mc.baselineValue, b) && IsP95(mc.candidateValue, c))
    && (mc.metric == "cost_usd.total" ==>
          mc.baselineValue == AccumulatedCost(b) && mc.candidateValue == AccumulatedCost(c))
  }

  /** Found by their names, the usage metrics compare what they say, whatever the evaluators are called. */
  lemma UsageRows(x: Experiment, o: RunOutcome, names: seq<string>)
    ensures var ms := Metrics(x, o, names); forall i :: 0 <= i < |ms| ==> UsageCompared(x, o, ms[i])
  {
    var ms, l := Metrics(x, o, names), |Rates(names)|;
    assert USAGE_METRICS[0] == "latency_ms.mean" && USAGE_METRICS[1] == "latency_ms.p95";
    assert USAGE_METRICS[2] == "cost_usd.total";
    forall i | 0 <= i < |ms|
      ensures UsageCompared(x, o, ms[i])
    {
      if i < l {
        RateNameIsNotUsage(Rates(names)[i]);
      } else {
        UsageRow(x, o, i - l);
        assert ms[i] == UsageComparisons(x, o)[i - l];
      }
    }
  }

  lemma UsageRow(x: Experiment, o: RunOutcome, k: nat)
    requires k < 3
    ensures UsageCompared(x, o, UsageComparisons(x, o)[k])
  {
    var b, c := RunsOf(o.runs, x.baselineVersionId), RunsOf(o.runs, x.candidateVersionId);
    LatencyP95IsP95(b);
    LatencyP95IsP95(c);
    CostTotalIsAccumulated(b);
    CostTotalIsAccumulated(c);
    UsageNamesDiffer();
  }

  lemma UsageNamesDiffer()
    ensures "latency_ms.mean" != "latency_ms.p95" && "latency_ms.mean" != "cost_usd.total"
    ensures "latency_ms.p95" != "cost_usd.total"
  {
    assert "latency_ms.mean"[0] == 'l' && "latency_ms.p95"[0] == 'l' && "cost_usd.total"[0] == 'c';
    assert |"latency_ms.mean"| == 15 && |"latency_ms.p95"| == 14;
  }

  lemma MetricsValid(x: Experiment, o: RunOutcome, names: seq<string>)
    requires NoDup(names)
    ensures EvaluationResult(x.id, Metrics(x, o, names), []).Valid()
  {
    MetricsNamed(x, o, names);
    MetricNamesDistinct(names);
  }

  lemma OneMoreEvaluator(x: Experiment, o: RunOutcome, names: seq<string>, i: nat)
    requires i < |names|
    ensures RateComparisons(x, o, Rates(names[..i + 1]))
         == RateComparisons(x, o, Rates(names[..i]))
            + [RateComparison(x, o, PassRate(names[i])), RateComparison(x, o, MeanScore(names[i]))]
  {
    assert names[..i + 1][..i] == names[..i];
    assert Rates(names[..i + 1]) == Rates(names[..i]) + [PassRate(names[i]), MeanScore(names[i])];
  }

  lemma NoEvaluatorYet(x: Experiment, o: RunOutcome)
    ensures RateComparisons(x, o, Rates([])) == [RateComparison(x, o, SuccessRate)]
  {
    assert Rates([]) == [SuccessRate];
  }

  /** `aggregate_results`: raises exactly on an invalid outcome or an absent version; otherwise it
      emits the expected metrics, each name once. */
  method AggregateResults(x: Experiment, o: RunOutcome, names: seq<string>) returns (r: Result<EvaluationResult>)
    ensures r.Ok? <==>
              && ValidOutcome(x, o, names)
              && RunsOf(o.runs, x.baselineVersionId) != [] && RunsOf(o.runs, x.candidateVersionId) != []
    ensures r.Err? ==> r.error == ConfigError
    ensures r.Ok? ==> r.value == EvaluationResult(x.id, Metrics(x, o, names), []) && r.value.Valid()
    ensures r.Ok? ==> forall i :: 0 <= i < |r.value.metrics| ==> UsageCompared(x, o, r.value.metrics[i])
  {
    var failure := ValidateOutcome(x, o, names);
    if failure.Some? {
      return Err(failure.value);
    }
    var baseline, candidate := RunsOf(o.runs, x.baselineVersionId), RunsOf(o.runs, x.candidateVersionId);
    if baseline == [] || candidate == [] {
      return Err(ConfigError);
    }
    var metrics := RateMetrics(x, o, names, baseline, candidate);
    MetricsValid(x, o, names);
    UsageRows(x, o, names);
    r := Ok(EvaluationResult(x.id, metrics + UsageComparisons(x, o), []));
  }

  /** The rate metrics, appended evaluator by evaluator. */
  method RateMetrics(x: Experiment, o: RunOutcome, names: seq<string>, baseline: seq<Run>, candidate: seq<Run>)
      returns (metrics: seq<MetricComparison>)
    requires ValidOutcome(x, o, names)
    requires baseline == RunsOf(o.runs, x.baselineVersionId) && candidate == RunsOf(o.runs, x.candidateVersionId)
    ensures metrics == RateComparisons(x, o, Rates(names))
  {
    var results := ResultsByRun(o.caseResults);
    SuccessRateIsMean(baseline, results);
    SuccessRateIsMean(candidate, results);
    NoEvaluatorYet(x, o);
    assert names[..0] == [];
    metrics := [MetricComparison("success_rate", SuccessRateOf(baseline), SuccessRateOf(candidate))];
    for i := 0 to |names|
      invariant metrics == RateComparisons(x, o, Rates(names[..i]))
    {
      OneMoreEvaluator(x, o, names, i);
      var pb, pc, sb, sc := EvaluatorRates(x, o, names, i, baseline, candidate, results);
      metrics := metrics
        + [MetricComparison(names[i] + ".pass_rate", pb, pc), MetricComparison(names[i] + ".mean_score", sb, sc)];
    }
    assert names[..|names|] == names;
  }

  /** The two metrics of one evaluator, which cannot fail on a valid outcome. */
  method EvaluatorRates(
    x: Experiment, o: RunOutcome, names: seq<string>, i: nat, baseline: seq<Run>, candidate: seq<Run>,
    results: map<string, CaseResult>
  ) returns (pb: real, pc: real, sb: real, sc: real)
    requires i < |names| && ValidOutcome(x, o, names)
    requires results == ResultsByRun(o.caseResults)
    requires baseline == RunsOf(o.runs, x.baselineVersionId) && candidate == RunsOf(o.runs, x.candidateVersionId)
    ensures pb == RateValue(PassRate(names[i]), baseline, results)
    ensures pc == RateValue(PassRate(names[i]), candidate, results)
    ensures sb == RateValue(MeanScore(names[i]), baseline, results)
    ensures sc == RateValue(MeanScore(names[i]), candidate, results)
  {
    ValidOutcomeReadable(x, o, names, PassRate(names[i]), x.baselineVersionId);
    ValidOutcomeReadable(x, o, names, PassRate(names[i]), x.candidateVersionId);
    ValidOutcomeReadable(x, o, names, MeanScore(names[i]), x.baselineVersionId);
    ValidOutcomeReadable(x, o, names, MeanScore(names[i]), x.candidateVersionId);
    var rpb := PassRateOf(baseline, results, names[i]);
    var rpc := PassRateOf(candidate, results, names[i]);
    var rsb := MeanScoreOf(baseline, results, names[i]);
    var rsc := MeanScoreOf(candidate, results, names[i]);
    pb, pc, sb, sc := rpb.value, rpc.value, rsb.value, rsc.value;
  }
}
