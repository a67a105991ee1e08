/** `run_evaluation`, end to end: totality, agreement of the two readings, and forced verdicts. */
module Pipeline {
  import opened Basics
  import opened Sequences
  import opened Domain
  import opened Observations
  import opened Runner
  import opened Aggregate
  import opened Pairing
  import opened Grid
  import opened Bootstrap
  import opened Gate
  import opened Guard

  // ----- The evaluated result -----

  ghost function SeriesOf(x: Experiment, o: RunOutcome, names: seq<string>): seq<PairedSeries> {
    AllSeries(names, PairsOf(x, o.runs), ResultsByRun(o.caseResults))
  }

  ghost function EvidenceFrom(x: Experiment, o: RunOutcome, names: seq<string>, rng: Rng): Result<seq<MetricEvidence>> {
    EvidenceSeq(SeriesOf(x, o, names), DEFAULT_CONFIDENCE_LEVEL, DEFAULT_RESAMPLES, DEFAULT_SEED, rng)
  }

  /** One evidence item per series, each built from that series and valid. */
  lemma EvidenceReady(x: Experiment, o: RunOutcome, names: seq<string>, rng: Rng)
    ensures var series, r := SeriesOf(x, o, names), EvidenceFrom(x, o, names, rng);
            && r.Ok? && |r.value| == |series| == |Rates(names)| + 2
            && forall i :: 0 <= i < |series| ==>
                 && r.value[i].Valid() && r.value[i].metric == series[i].metric
                 && r.value[i].droppedProviderFailures == series[i].droppedProviderFailures
                 && IsEvidence(r.value[i], series[i].baseline, series[i].candidate)
  {
    var p, results := PairsOf(x, o.runs), ResultsByRun(o.caseResults);
    var series := SeriesOf(x, o, names);
    forall i | 0 <= i < |series|
      ensures |series[i].baseline| == |series[i].candidate|
    {
      SeriesLengths(names, p, results, i);
    }
    EvidenceSeqBuilt(series, DEFAULT_CONFIDENCE_LEVEL, DEFAULT_RESAMPLES, DEFAULT_SEED, rng);
    var items := EvidenceFrom(x, o, names, rng).value;
    forall i | 0 <= i < |series|
      ensures items[i].metric == series[i].metric
      ensures items[i].droppedProviderFailures == series[i].droppedProviderFailures
      ensures IsEvidence(items[i], series[i].baseline, series[i].candidate)
    {
      ItemOfSeries(series[i], i, items[i], rng);
    }
  }

  lemma SeriesLengths(names: seq<string>, p: Pairs, results: map<string, CaseResult>, i: nat)
    requires p.Aligned() && i < |Rates(names)| + 2
    ensures var s := AllSeries(names, p, results)[i]; |s.baseline| == |s.candidate|
  {
  }

  lemma ItemOfSeries(s: PairedSeries, i: nat, e: MetricEvidence, rng: Rng)
    requires SeriesEvidence(s, i, DEFAULT_CONFIDENCE_LEVEL, DEFAULT_RESAMPLES, DEFAULT_SEED, rng) == Ok(e)
    ensures e.metric == s.metric && e.droppedProviderFailures == s.droppedProviderFailures
    ensures IsEvidence(e, s.baseline, s.candidate)
  {
    assert EvidenceOf(s.metric, s.kind, s.baseline, s.candidate, DEFAULT_CONFIDENCE_LEVEL, DEFAULT_RESAMPLES,
                      DEFAULT_SEED + i, s.droppedProviderFailures, rng) == Ok(e);
  }

  /** The result the gate sees: metrics from execution order, evidence from sorted pairs. */
  ghost function FinalResult(x: Experiment, o: RunOutcome, names: seq<string>, rng: Rng): EvaluationResult {
    EvidenceReady(x, o, names, rng);
    EvaluationResult(x.id, Metrics(x, o, names), EvidenceFrom(x, o, names, rng).value)
  }

  // ----- Names -----

  /** Evidence names, in order: the rates, then mean latency, then mean cost. */
  function EvidenceNames(names: seq<string>): seq<string> {
    RateNames(Rates(names)) + ["latency_ms.mean", "cost_usd.mean"]
  }

  lemma CostMeanIsNoRate(rate: Rate)
    ensures rate.Name() != "cost_usd.mean"
  {
    RateNameEnds(rate);
  }

  lemma EvidenceNamesDistinct(names: seq<string>)
    requires NoDup(names)
    ensures NoDup(EvidenceNames(names))
  {
    RatesDistinct(names);
    var rates, all := Rates(names), EvidenceNames(names);
    var tail := ["latency_ms.mean", "cost_usd.mean"];
    forall i, j | 0 <= i < j < |all|
      ensures all[i] != all[j]
    {
      if j < |rates| {
        RateNamesDiffer(rates[i], rates[j]);
      } else if i < |rates| {
        RateNameIsNotUsage(rates[i]);
        CostMeanIsNoRate(rates[i]);
        assert USAGE_METRICS[0] == "latency_ms.mean";
        assert all[j] == tail[j - |rates|];
      } else {
        assert all[i] == tail[0] && all[j] == tail[1];
      }
    }
  }

  lemma EvidenceNamed(x: Experiment, o: RunOutcome, names: seq<string>, rng: Rng)
    ensures var evidence := FinalResult(x, o, names, rng).evidence;
            && |evidence| == |EvidenceNames(names)|
            && forall i :: 0 <= i < |evidence| ==> evidence[i].metric == EvidenceNames(names)[i]
  {
    EvidenceReady(x, o, names, rng);
    var evidence, series := FinalResult(x, o, names, rng).evidence, SeriesOf(x, o, names);
    forall i | 0 <= i < |evidence|
      ensures evidence[i].metric == EvidenceNames(names)[i]
    {
      assert evidence[i].metric == series[i].metric;
      SeriesNamed(names, PairsOf(x, o.runs), ResultsByRun(o.caseResults), i);
    }
  }

  lemma SeriesNamed(names: seq<string>, p: Pairs, results: map<string, CaseResult>, i: nat)
    requires p.Aligned() && i < |Rates(names)| + 2
    ensures AllSeries(names, p, results)[i].metric == EvidenceNames(names)[i]
  {
  }

  lemma {:induction false} LookupAt(evidence: seq<MetricEvidence>, i: nat)
    requires i < |evidence|
    requires forall i, j :: 0 <= i < j < |evidence| ==> evidence[i].metric != evidence[j].metric
    ensures EvidenceFor(evidence, evidence[i].metric) == Some(evidence[i])
  {
    var n := |evidence| - 1;
    if i != n {
      LookupAt(evidence[..n], i);
    }
  }

  /** Every metric an evaluation emits has a direction rule: only usage is better when lower. */
  lemma EveryMetricHasDirection(names: seq<string>)
    ensures forall i :: 0 <= i < |Rates(names)| ==> DirectionOf(ExpectedMetricNames(names)[i]) == Ok(HigherIsBetter)
    ensures forall i :: |Rates(names)| <= i < |ExpectedMetricNames(names)| ==>
              DirectionOf(ExpectedMetricNames(names)[i]) == Ok(LowerIsBetter)
  {
    var rates := Rates(names);
    forall i | 0 <= i < |rates|
      ensures DirectionOf(ExpectedMetricNames(names)[i]) == Ok(HigherIsBetter)
    {
      RateDirection(rates[i]);
    }
    forall i | |rates| <= i < |ExpectedMetricNames(names)|
      ensures DirectionOf(ExpectedMetricNames(names)[i]) == Ok(LowerIsBetter)
    {
      assert ExpectedMetricNames(names)[i] == USAGE_METRICS[i - |rates|];
    }
  }

  lemma EndsWithSuffix(s: string, suffix: string)
    ensures EndsWith(s + suffix, suffix)
  {
    assert (s + suffix)[|s|..] == suffix;
  }

  lemma LowerIsUsage(m: string)
    requires m !in USAGE_METRICS
    ensures m !in LOWER_IS_BETTER
  {
    assert USAGE_METRICS[0] == "latency_ms.mean" && USAGE_METRICS[1] == "latency_ms.p95";
    assert USAGE_METRICS[2] == "cost_usd.total";
  }

  lemma RateDirection(rate: Rate)
    ensures DirectionOf(rate.Name()) == Ok(HigherIsBetter)
  {
    RateNameIsNotUsage(rate);
    LowerIsUsage(rate.Name());
    match rate
    case SuccessRate =>
    case PassRate(e) => EndsWithSuffix(e, ".pass_rate");
    case MeanScore(e) => EndsWithSuffix(e, ".mean_score");
  }

  /** The result satisfies everything its constructors check. */
  lemma FinalResultValid(x: Experiment, o: RunOutcome, names: seq<string>, rng: Rng)
    requires NoDup(names)
    ensures FinalResult(x, o, names, rng).Valid()
  {
    MetricsValid(x, o, names);
    EvidenceReady(x, o, names, rng);
    EvidenceNamed(x, o, names, rng);
    EvidenceNamesDistinct(names);
  }

  // ----- run_evaluation -----

  datatype Evaluation = Evaluation(outcome: RunOutcome, result: EvaluationResult, gate: GateReport)

  /** An evaluation is the visited grid, a result of the experiment, and the gate's report on it. */
  ghost predicate IsEvaluation(
    x: Experiment, dataset: Dataset, baseline: SystemVersion, candidate: SystemVersion, policy: Option<ReleasePolicy>,
    w: World, evaluators: seq<Evaluator>, v: Evaluation)
    requires x.Valid()
  {
    && Preflight(x, dataset, baseline, candidate, w, evaluators)
    && Visited(x, w, evaluators, GridCells(baseline, candidate, dataset.cases, x.repeats),
               v.outcome.runs, v.outcome.caseResults)
    && v.result.experimentId == x.id && Ok(v.gate) == EvaluateGate(v.result, policy)
  }

  /** Its outcome is a full grid, and its result the valid one that the outcome determines. */
  ghost predicate IsDetermined(x: Experiment, names: seq<string>, n: nat, rng: Rng, v: Evaluation) {
    && GridOutcome(x, v.outcome, names, n)
    && v.result == FinalResult(x, v.outcome, names, rng) && v.result.Valid()
  }

  /** The policy names a metric that is not expected. */
  ghost predicate UnknownMetric(policy: Option<ReleasePolicy>, names: seq<string>) {
    policy.Some? && exists m :: m in policy.value.thresholds && m !in ExpectedMetricNames(names)
  }

  /** Why an evaluation stops with `e`: preflight refuses it, a cell raises, or a metric is unknown. */
  ghost predicate StopsWith(
    x: Experiment, dataset: Dataset, baseline: SystemVersion, candidate: SystemVersion, policy: Option<ReleasePolicy>,
    w: World, evaluators: seq<Evaluator>, e: Error)
    requires x.Valid()
  {
    || (e == ConfigError && !Preflight(x, dataset, baseline, candidate, w, evaluators))
    || FirstFailure(x, w, evaluators, GridCells(baseline, candidate, dataset.cases, x.repeats), e)
    || (e == ConfigError && UnknownMetric(policy, NamesOf(evaluators)))
  }

  /** `run_evaluation`. When evaluators label scores with their own names, the only failures left
      after preflight are exceptions from the providers, templates or evaluators themselves, and a
      policy that names a metric not expected. */
  method RunEvaluation(
    x: Experiment, dataset: Dataset, baseline: SystemVersion, candidate: SystemVersion, policy: Option<ReleasePolicy>,
    w: World, evaluators: seq<Evaluator>, rng: Rng
  ) returns (r: Result<Evaluation>)
    requires x.Valid() && dataset.Valid()
    ensures r.Ok? ==> IsEvaluation(x, dataset, baseline, candidate, policy, w, evaluators, r.value)
    ensures w.FreshIds() && OwnLabels(evaluators) ==>
              match r
              case Ok(v) => IsDetermined(x, NamesOf(evaluators), |dataset.cases| * x.repeats, rng, v)
              case Err(e) => StopsWith(x, dataset, baseline, candidate, policy, w, evaluators, e)
  {
    var outcome := RunExperiment(x, dataset, baseline, candidate, w, evaluators);
    if outcome.Err? {
      return Err(outcome.error);
    }
    ghost var n := |dataset.cases| * x.repeats;
    if w.FreshIds() && OwnLabels(evaluators) {
      RunnerProducesGrid(x, dataset, baseline, candidate, w, evaluators, outcome.value);
    }
    r := AssessOutcome(x, outcome.value, NamesOf(evaluators), policy, rng, n);
  }

  /** What follows the runs: metrics, then evidence, then the gate. */
  method AssessOutcome(
    x: Experiment, o: RunOutcome, names: seq<string>, policy: Option<ReleasePolicy>, rng: Rng, ghost n: nat
  ) returns (r: Result<Evaluation>)
    ensures r.Ok? ==>
              && r.value.outcome == o && r.value.result.experimentId == x.id
              && Ok(r.value.gate) == EvaluateGate(r.value.result, policy)
    ensures GridOutcome(x, o, names, n) ==>
              match r
              case Ok(v) => IsDetermined(x, names, n, rng, v)
              case Err(e) => e == ConfigError && UnknownMetric(policy, names)
  {
    if GridOutcome(x, o, names, n) {
      GridIsUsable(x, o, names, n);
      FinalResultValid(x, o, names, rng);
      GateFailsOnlyOnUnknownMetric(x, o, names, rng, policy);
    }
    var aggregated := AggregateResults(x, o, names);
    if aggregated.Err? {
      return Err(aggregated.error);
    }
    EvidenceReady(x, o, names, rng);
    var evidence := BuildStatisticalEvidence(
      x, o, names, DEFAULT_CONFIDENCE_LEVEL, DEFAULT_RESAMPLES, DEFAULT_SEED, rng);
    if evidence.Err? {
      return Err(evidence.error);
    }
    var result := aggregated.value.(evidence := evidence.value);
    var gate := EvaluateGate(result, policy);
    GateTotality(result, policy);
    if gate.Err? {
      return Err(gate.error);
    }
    r := Ok(Evaluation(o, result, gate.value));
  }

  /** A full grid passes every check of aggregation and of pairing. */
  lemma GridIsUsable(x: Experiment, o: RunOutcome, names: seq<string>, n: nat)
    requires GridOutcome(x, o, names, n)
    ensures RunsOf(o.runs, x.baselineVersionId) != [] && RunsOf(o.runs, x.candidateVersionId) != []
    ensures NoDup(names) && KeysDistinct(x, o.runs)
    ensures RatesReadable(names, PairsOf(x, o.runs), ResultsByRun(o.caseResults))
  {
    GridSplits(x, o.runs, n);
    GridReadable(x, o, names, n);
  }

  lemma GateFailsOnlyOnUnknownMetric(
    x: Experiment, o: RunOutcome, names: seq<string>, rng: Rng, policy: Option<ReleasePolicy>)
    ensures EvaluateGate(FinalResult(x, o, names, rng), policy).Err?
       <==> UnknownMetric(policy, names)
  {
    var result, expected := FinalResult(x, o, names, rng), ExpectedMetricNames(names);
    GateTotality(result, policy);
    MetricsNamed(x, o, names);
    EveryMetricHasDirection(names);
    forall i | 0 <= i < |result.metrics|
      ensures DirectionOf(result.metrics[i].metric).Ok?
    {
      assert result.metrics[i].metric == expected[i];
    }
    forall m
      ensures Produced(result, m) <==> m in expected
    {
      if Produced(result, m) {
        var i :| 0 <= i < |result.metrics| && result.metrics[i].metric == m;
        assert expected[i] == m;
      }
      if m in expected {
        var i :| 0 <= i < |expected| && expected[i] == m;
        assert result.metrics[i].metric == m;
      }
    }
  }

  // ----- What the gate reads for each metric -----

  /** The row of a rate: its point values are the means of the very series its evidence is built
      from, on all `n` pairs, none dropped. */
  lemma RateRow(x: Experiment, o: RunOutcome, names: seq<string>, n: nat, i: nat, rng: Rng)
    requires GridOutcome(x, o, names, n) && i < |Rates(names)|
    ensures var rate, p, results := Rates(names)[i], PairsOf(x, o.runs), ResultsByRun(o.caseResults);
            var result := FinalResult(x, o, names, rng);
            && result.metrics[i] == RateComparison(x, o, rate)
            && DirectionOf(result.metrics[i].metric) == Ok(HigherIsBetter)
            && i < |result.evidence|
            && EvidenceFor(result.evidence, result.metrics[i].metric) == Some(result.evidence[i])
            && IsEvidence(result.evidence[i], ObsSeq(rate, p.baseline, results), ObsSeq(rate, p.candidate, results))
            && result.evidence[i].nPairs == n == |p.keys|
            && result.evidence[i].droppedProviderFailures == 0
            && result.evidence[i].baseline.mean == result.metrics[i].baselineValue
            && result.evidence[i].candidate.mean == result.metrics[i].candidateValue
            && result.evidence[i].delta == result.metrics[i].candidateValue - result.metrics[i].baselineValue
            && result.evidence[i].delta
               == Mean(Diffs(ObsSeq(rate, p.baseline, results), ObsSeq(rate, p.candidate, results)))
  {
    var rate, p, results := Rates(names)[i], PairsOf(x, o.runs), ResultsByRun(o.caseResults);
    var result := FinalResult(x, o, names, rng);
    GridPairs(x, o.runs, n);
    EvidenceReady(x, o, names, rng);
    assert SeriesOf(x, o, names)[i] == RateSeries(rate, p, results);
    FinalResultValid(x, o, names, rng);
    LookupAt(result.evidence, i);
    RateDirection(rate);
    EvidenceFacts(result.evidence[i], ObsSeq(rate, p.baseline, results), ObsSeq(rate, p.candidate, results));
    PairedMeansMatchAggregate(x, o, names, n, rate);
  }

  /** The row of mean latency: its evidence uses only the pairs in which neither side failed. */
  lemma LatencyRow(x: Experiment, o: RunOutcome, names: seq<string>, rng: Rng)
    requires NoDup(names)
    ensures var l, p := |Rates(names)|, PairsOf(x, o.runs);
            var result, ok := FinalResult(x, o, names, rng), BothOk(p.baseline, p.candidate);
            && l < |result.metrics| && l < |result.evidence|
            && result.metrics[l].metric == "latency_ms.mean" && DirectionOf("latency_ms.mean") == Ok(LowerIsBetter)
            && EvidenceFor(result.evidence, "latency_ms.mean") == Some(result.evidence[l])
            && IsEvidence(result.evidence[l], ok.0, ok.1)
            && result.evidence[l].nPairs + result.evidence[l].droppedProviderFailures == |p.keys|
  {
    var l, p := |Rates(names)|, PairsOf(x, o.runs);
    var result, ok := FinalResult(x, o, names, rng), BothOk(p.baseline, p.candidate);
    EvidenceReady(x, o, names, rng);
    assert SeriesOf(x, o, names)[l] == LatencySeries(p);
    FinalResultValid(x, o, names, rng);
    LookupAt(result.evidence, l);
    EvidenceFacts(result.evidence[l], ok.0, ok.1);
  }

  /** The two deterministic metrics carry no evidence. */
  lemma NoEvidenceRows(x: Experiment, o: RunOutcome, names: seq<string>, rng: Rng)
    ensures var evidence := FinalResult(x, o, names, rng).evidence;
            EvidenceFor(evidence, "latency_ms.p95") == None && EvidenceFor(evidence, "cost_usd.total") == None
  {
    var evidence, l := FinalResult(x, o, names, rng).evidence, |Rates(names)|;
    EvidenceNamed(x, o, names, rng);
    forall i | 0 <= i < |evidence|
      ensures evidence[i].metric != "latency_ms.p95" && evidence[i].metric != "cost_usd.total"
    {
      if i < l {
        RateNameIsNotUsage(Rates(names)[i]);
        assert USAGE_METRICS[1] == "latency_ms.p95" && USAGE_METRICS[2] == "cost_usd.total";
      } else {
        assert EvidenceNames(names)[i] == ["latency_ms.mean", "cost_usd.mean"][i - l];
      }
    }
    EvidenceForIsMember(evidence, "latency_ms.p95");
    EvidenceForIsMember(evidence, "cost_usd.total");
  }

  // ----- Forced verdicts -----

  lemma BothOkNonNegative(b: seq<Run>, c: seq<Run>)
    requires |b| == |c|
    ensures forall i :: 0 <= i < |BothOk(b, c).0| ==> BothOk(b, c).0[i] >= 0.0
  {
  }

  /** Whatever the random stream: a rate on which no matched pair got worse never blocks, and
      neither does mean latency when no comparable pair got slower. */
  lemma NoPairWorseNeverBlocks(
    x: Experiment, o: RunOutcome, names: seq<string>, n: nat, policy: ReleasePolicy, rng: Rng)
    requires GridOutcome(x, o, names, n) && policy.Valid()
    ensures var p, results := PairsOf(x, o.runs), ResultsByRun(o.caseResults);
            var result := FinalResult(x, o, names, rng);
            && (forall i :: 0 <= i < |Rates(names)|
                  && NoPairWorse(HigherIsBetter, ObsSeq(Rates(names)[i], p.baseline, results),
                       ObsSeq(Rates(names)[i], p.candidate, results))
                  ==> !Blocks(result, policy, i))
            && (NoPairWorse(LowerIsBetter, BothOk(p.baseline, p.candidate).0, BothOk(p.baseline, p.candidate).1) ==>
                  !Blocks(result, policy, |Rates(names)|))
  {
    var p, results := PairsOf(x, o.runs), ResultsByRun(o.caseResults);
    var result := FinalResult(x, o, names, rng);
    forall i | 0 <= i < |Rates(names)|
      && NoPairWorse(HigherIsBetter, ObsSeq(Rates(names)[i], p.baseline, results),
           ObsSeq(Rates(names)[i], p.candidate, results))
      ensures !Blocks(result, policy, i)
    {
      RateNeverBlocks(x, o, names, n, i, policy, rng);
    }
    if NoPairWorse(LowerIsBetter, BothOk(p.baseline, p.candidate).0, BothOk(p.baseline, p.candidate).1) {
      LatencyNeverBlocks(x, o, names, policy, rng);
    }
  }

  lemma RateNeverBlocks(
    x: Experiment, o: RunOutcome, names: seq<string>, n: nat, i: nat, policy: ReleasePolicy, rng: Rng)
    requires GridOutcome(x, o, names, n) && policy.Valid() && i < |Rates(names)|
    requires var p, results := PairsOf(x, o.runs), ResultsByRun(o.caseResults);
             NoPairWorse(HigherIsBetter, ObsSeq(Rates(names)[i], p.baseline, results),
               ObsSeq(Rates(names)[i], p.candidate, results))
    ensures !Blocks(FinalResult(x, o, names, rng), policy, i)
  {
    var rate, p, results := Rates(names)[i], PairsOf(x, o.runs), ResultsByRun(o.caseResults);
    var e := ReadRate(x, o, names, n, i, rng);
    NoneWorseNeverBlocks(
      FinalResult(x, o, names, rng), i, e, ObsSeq(rate, p.baseline, results), ObsSeq(rate, p.candidate, results),
      policy);
  }

  lemma NoneWorseNeverBlocks(
    result: EvaluationResult, i: nat, e: MetricEvidence, b: seq<real>, c: seq<real>, policy: ReleasePolicy)
    requires ReadsFrom(result, i, HigherIsBetter, e, b, c) && policy.Valid() && NoPairWorse(HigherIsBetter, b, c)
    ensures !Blocks(result, policy, i)
  {
    if result.metrics[i].metric in policy.thresholds {
      NoPairWorseNeverConfirms(e, b, c, HigherIsBetter, policy.thresholds[result.metrics[i].metric]);
    }
  }

  lemma LatencyNeverBlocks(x: Experiment, o: RunOutcome, names: seq<string>, policy: ReleasePolicy, rng: Rng)
    requires NoDup(names) && policy.Valid()
    requires var p := PairsOf(x, o.runs);
             NoPairWorse(LowerIsBetter, BothOk(p.baseline, p.candidate).0, BothOk(p.baseline, p.candidate).1)
    ensures |Rates(names)| < |FinalResult(x, o, names, rng).metrics|
    ensures !Blocks(FinalResult(x, o, names, rng), policy, |Rates(names)|)
  {
    var l, p := |Rates(names)|, PairsOf(x, o.runs);
    var result, ok := FinalResult(x, o, names, rng), BothOk(p.baseline, p.candidate);
    LatencyRow(x, o, names, rng);
    if "latency_ms.mean" in policy.thresholds {
      BothOkNonNegative(p.baseline, p.candidate);
      NoPairWorseNeverConfirms(result.evidence[l], ok.0, ok.1, LowerIsBetter, policy.thresholds["latency_ms.mean"]);
    }
  }

  /** Metric `i` of a result is judged in this direction, and its values are the means of the series
      `b` and `c` that its evidence `e` was built from. */
  ghost predicate ReadsFrom(
    result: EvaluationResult, i: nat, direction: Direction, e: MetricEvidence, b: seq<real>, c: seq<real>) {
    && i < |result.metrics| && |b| == |c|
    && DirectionOf(result.metrics[i].metric) == Ok(direction)
    && EvidenceFor(result.evidence, result.metrics[i].metric) == Some(e)
    && IsEvidence(e, b, c)
    && e.baseline.mean == result.metrics[i].baselineValue && e.candidate.mean == result.metrics[i].candidateValue
    && (forall k :: 0 <= k < |b| ==> b[k] >= 0.0 && c[k] >= 0.0)
  }

  lemma ReadRate(x: Experiment, o: RunOutcome, names: seq<string>, n: nat, i: nat, rng: Rng) returns (e: MetricEvidence)
    requires GridOutcome(x, o, names, n) && i < |Rates(names)|
    ensures var rate, p, results := Rates(names)[i], PairsOf(x, o.runs), ResultsByRun(o.caseResults);
            && ReadsFrom(FinalResult(x, o, names, rng), i, HigherIsBetter, e,
                         ObsSeq(rate, p.baseline, results), ObsSeq(rate, p.candidate, results))
            && |p.baseline| == n && RateComparison(x, o, rate) == FinalResult(x, o, names, rng).metrics[i]
  {
    RateRow(x, o, names, n, i, rng);
    e := FinalResult(x, o, names, rng).evidence[i];
  }

  lemma AllWorseBlocks(
    result: EvaluationResult, i: nat, direction: Direction, e: MetricEvidence, b: seq<real>, c: seq<real>,
    p: ReleasePolicy,
    tolerated: real)
    requires ReadsFrom(result, i, direction, e, b, c) && |b| >= MIN_PAIRS_TO_BLOCK
    requires result.metrics[i].metric in p.thresholds && p.Valid()
    requires tolerated == Times(p.thresholds[result.metrics[i].metric], result.metrics[i].baselineValue)
    requires AllWorseBy(direction, b, c, tolerated)
    ensures Blocks(result, p, i)
  {
    EvidenceFacts(e, b, c);
    SumNonNegative(b);
    ProductNonNegative(p.thresholds[result.metrics[i].metric], e.baseline.mean);
    EveryPairWorseBlocks(direction, e, b, c, p.thresholds[result.metrics[i].metric]);
  }

  /** On rate `i`, every pair falls by more than threshold x baseline mean. */
  ghost predicate EveryPairWorse(x: Experiment, o: RunOutcome, names: seq<string>, i: nat, policy: ReleasePolicy)
    requires i < |Rates(names)| && Rates(names)[i].Name() in policy.thresholds
  {
    var rate, p, results := Rates(names)[i], PairsOf(x, o.runs), ResultsByRun(o.caseResults);
    AllWorseBy(HigherIsBetter, ObsSeq(rate, p.baseline, results), ObsSeq(rate, p.candidate, results),
               Times(policy.thresholds[rate.Name()], RateComparison(x, o, rate).baselineValue))
  }

  lemma EveryPairWorseRow(
    x: Experiment, o: RunOutcome, names: seq<string>, n: nat, i: nat, policy: ReleasePolicy, rng: Rng)
    requires GridOutcome(x, o, names, n) && policy.Valid() && n >= MIN_PAIRS_TO_BLOCK
    requires i < |Rates(names)| && Rates(names)[i].Name() in policy.thresholds
    requires EveryPairWorse(x, o, names, i, policy)
    ensures Blocks(FinalResult(x, o, names, rng), policy, i)
  {
    var rate, p, results := Rates(names)[i], PairsOf(x, o.runs), ResultsByRun(o.caseResults);
    var e := ReadRate(x, o, names, n, i, rng);
    AllWorseBlocks(
      FinalResult(x, o, names, rng), i, HigherIsBetter, e,
      ObsSeq(rate, p.baseline, results), ObsSeq(rate, p.candidate, results),
      policy, Times(policy.thresholds[rate.Name()], RateComparison(x, o, rate).baselineValue));
  }

  /** Whatever the random stream: when at least eight pairs all fall, on a gated rate, by more than
      threshold x baseline mean, that rate blocks and so does the release. */
  lemma EveryPairWorseAlwaysBlocks(
    x: Experiment, o: RunOutcome, names: seq<string>, n: nat, i: nat, policy: ReleasePolicy, rng: Rng)
    requires GridOutcome(x, o, names, n) && policy.Valid() && n >= MIN_PAIRS_TO_BLOCK
    requires i < |Rates(names)| && Rates(names)[i].Name() in policy.thresholds
    requires EveryPairWorse(x, o, names, i, policy)
    requires EvaluateGate(FinalResult(x, o, names, rng), Some(policy)).Ok?
    ensures Blocks(FinalResult(x, o, names, rng), policy, i)
    ensures EvaluateGate(FinalResult(x, o, names, rng), Some(policy)).value.decision == BLOCK
  {
    EveryPairWorseRow(x, o, names, n, i, policy, rng);
    OneBlockingRowBlocks(x, o, names, rng, policy, i);
  }

  lemma OneBlockingRowBlocks(x: Experiment, o: RunOutcome, names: seq<string>, rng: Rng, policy: ReleasePolicy, i: nat)
    requires policy.Valid() && EvaluateGate(FinalResult(x, o, names, rng), Some(policy)).Ok?
    requires i < |FinalResult(x, o, names, rng).metrics| && Blocks(FinalResult(x, o, names, rng), policy, i)
    ensures EvaluateGate(FinalResult(x, o, names, rng), Some(policy)).value.decision == BLOCK
  {
    MetricsNonNegative(x, o, names, rng);
    DecisionMeaning(FinalResult(x, o, names, rng), policy);
  }

  /** Every pair changes by the same amount. */
  ghost predicate AllDiffer(b: seq<real>, c: seq<real>, d: real)
    requires |b| == |c|
  {
    forall k :: 0 <= k < |b| ==> c[k] - b[k] == d
  }

  lemma ConstantVerdict(
    result: EvaluationResult, i: nat, direction: Direction, e: MetricEvidence, b: seq<real>, c: seq<real>,
    p: ReleasePolicy,
    d: real)
    requires ReadsFrom(result, i, direction, e, b, c) && |b| >= MIN_PAIRS_TO_BLOCK
    requires result.metrics[i].metric in p.thresholds && p.Valid()
    requires AllDiffer(b, c, d)
    requires EvaluateGate(result, Some(p)).Ok?
    ensures var v := EvaluateGate(result, Some(p)).value.verdicts;
            i < |v| && v[i].outcome == if v[i].thresholdBreached then Regression else Pass
  {
    VerdictsPointwise(result.metrics, result.evidence, Some(p));
    ConstantDifferenceRefinesToPointTest(direction, e, b, c, p.thresholds[result.metrics[i].metric], d);
  }

  /** Whatever the random stream: when at least eight pairs all differ by the same amount on a
      rate, its verdict is the plain point comparison, never inconclusive, never low on evidence. */
  lemma ConstantDifferenceVerdict(
    x: Experiment, o: RunOutcome, names: seq<string>, n: nat, i: nat, policy: ReleasePolicy, rng: Rng, d: real)
    requires GridOutcome(x, o, names, n) && policy.Valid() && n >= MIN_PAIRS_TO_BLOCK
    requires i < |Rates(names)| && Rates(names)[i].Name() in policy.thresholds
    requires EvaluateGate(FinalResult(x, o, names, rng), Some(policy)).Ok?
    requires var rate, p, results := Rates(names)[i], PairsOf(x, o.runs), ResultsByRun(o.caseResults);
             AllDiffer(ObsSeq(rate, p.baseline, results), ObsSeq(rate, p.candidate, results), d)
    ensures var v := EvaluateGate(FinalResult(x, o, names, rng), Some(policy)).value.verdicts;
            i < |v| && v[i].outcome == if v[i].thresholdBreached then Regression else Pass
  {
    var rate, p, results := Rates(names)[i], PairsOf(x, o.runs), ResultsByRun(o.caseResults);
    var e := ReadRate(x, o, names, n, i, rng);
    ConstantVerdict(
      FinalResult(x, o, names, rng), i, HigherIsBetter, e,
      ObsSeq(rate, p.baseline, results), ObsSeq(rate, p.candidate, results),
      policy, d);
  }

  // ----- Observed quantities are never negative -----

  lemma LatenciesNonNegative(runs: seq<Run>)
    ensures forall i :: 0 <= i < |SuccessfulLatencies(runs)| ==> SuccessfulLatencies(runs)[i] >= 0.0
  {
  }

  lemma P95NonNegative(values: seq<real>)
    requires forall i :: 0 <= i < |values| ==> values[i] >= 0.0
    ensures P95(values) >= 0.0
  {
    SortPermutes(values, RealLeq);
    if values != [] {
      P95IsNearestRank(values, values);
    }
  }

  lemma UsageNonNegative(runs: seq<Run>)
    ensures LatencyMean(runs) >= 0.0 && LatencyP95(runs) >= 0.0 && CostTotal(runs) >= 0.0
  {
    LatenciesNonNegative(runs);
    SumNonNegative(SuccessfulLatencies(runs));
    P95NonNegative(SuccessfulLatencies(runs));
    SumNonNegative(Costs(runs));
  }

  lemma MetricsNonNegative(x: Experiment, o: RunOutcome, names: seq<string>, rng: Rng)
    ensures var metrics := FinalResult(x, o, names, rng).metrics;
            forall i :: 0 <= i < |metrics| ==> metrics[i].baselineValue >= 0.0
  {
    var metrics, results := Metrics(x, o, names), ResultsByRun(o.caseResults);
    var b := RunsOf(o.runs, x.baselineVersionId);
    forall i | 0 <= i < |metrics|
      ensures metrics[i].baselineValue >= 0.0
    {
      if i < |Rates(names)| {
        SumNonNegative(ObsSeq(Rates(names)[i], b, results));
      } else {
        UsageNonNegative(b);
        assert metrics[i] == UsageComparisons(x, o)[i - |Rates(names)|];
      }
    }
  }

  lemma SeriesNonNegative(x: Experiment, o: RunOutcome, names: seq<string>, i: nat)
    requires i < |Rates(names)| + 2
    ensures var s := SeriesOf(x, o, names)[i]; forall k :: 0 <= k < |s.baseline| ==> s.baseline[k] >= 0.0
  {
    var p := PairsOf(x, o.runs);
    BothOkNonNegative(p.baseline, p.candidate);
  }

  /** Everything the pipeline hands to the gate is non-negative, so for every pipeline result the
      blocking metrics are antitone in the policy. */
  lemma LooserPolicyNeverBlocksMore(
    x: Experiment, o: RunOutcome, names: seq<string>, rng: Rng, loose: ReleasePolicy, tight: ReleasePolicy)
    requires loose.Valid() && tight.Valid() && Looser(loose, tight)
    requires EvaluateGate(FinalResult(x, o, names, rng), Some(tight)).Ok?
    ensures EvaluateGate(FinalResult(x, o, names, rng), Some(loose)).Ok?
    ensures var result := FinalResult(x, o, names, rng);
            var l, t := EvaluateGate(result, Some(loose)).value, EvaluateGate(result, Some(tight)).value;
            && (forall m :: m in l.blocking ==> m in t.blocking)
            && (t.decision == PASS ==> l.decision == PASS)
  {
    var result := FinalResult(x, o, names, rng);
    MetricsNonNegative(x, o, names, rng);
    EvidenceReady(x, o, names, rng);
    forall i | 0 <= i < |result.evidence|
      ensures result.evidence[i].baseline.mean >= 0.0
    {
      var s := SeriesOf(x, o, names)[i];
      SeriesNonNegative(x, o, names, i);
      EvidenceFacts(result.evidence[i], s.baseline, s.candidate);
      SumNonNegative(s.baseline);
    }
    BlockingAntitoneInPolicy(result, loose, tight);
  }
}
