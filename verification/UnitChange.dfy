/** Measuring latency in another unit rescales the latency figures and changes no verdict. */
module UnitChange {
  import opened Basics
  import opened Sequences
  import opened Ordering
  import opened Domain
  import opened Observations
  import opened Aggregate
  import opened Pairing
  import opened Bootstrap
  import opened Gate
  import opened Guard
  import opened Pipeline

  // ----- The change of unit -----

  function ScaleRun(k: real, r: Run): Run
    requires k > 0.0
  {
    ProductNonNegative(k, r.usage.latencyMs);
    r.(usage := Usage(r.usage.promptTokens, r.usage.completionTokens, r.usage.costUsd, Times(k, r.usage.latencyMs)))
  }

  function ScaleRuns(k: real, runs: seq<Run>): (s: seq<Run>)
    requires k > 0.0
    ensures |s| == |runs|
    ensures forall i :: 0 <= i < |s| ==> s[i] == ScaleRun(k, runs[i])
  {
    seq(|runs|, i requires 0 <= i < |runs| => ScaleRun(k, runs[i]))
  }

  /** The same outcome with every latency multiplied by `k`. */
  function ScaleOutcome(k: real, o: RunOutcome): RunOutcome
    requires k > 0.0
  {
    RunOutcome(ScaleRuns(k, o.runs), o.caseResults)
  }

  lemma ScaleRunsInit(k: real, runs: seq<Run>)
    requires k > 0.0 && runs != []
    ensures ScaleRuns(k, runs)[..|runs| - 1] == ScaleRuns(k, runs[..|runs| - 1])
  {
  }

  lemma {:induction false} ScaleRunsOf(k: real, runs: seq<Run>, version: string)
    requires k > 0.0
    ensures RunsOf(ScaleRuns(k, runs), version) == ScaleRuns(k, RunsOf(runs, version))
  {
    if runs != [] {
      var n := |runs| - 1;
      ScaleRunsInit(k, runs);
      ScaleRunsOf(k, runs[..n], version);
      var rest := RunsOf(runs[..n], version);
      assert ScaleRuns(k, rest + [runs[n]]) == ScaleRuns(k, rest) + [ScaleRun(k, runs[n])];
    }
  }

  lemma ScaleObs(k: real, rate: Rate, runs: seq<Run>, results: map<string, CaseResult>)
    requires k > 0.0
    ensures ObsSeq(rate, ScaleRuns(k, runs), results) == ObsSeq(rate, runs, results)
  {
  }

  lemma {:induction false} ScaleLatencies(k: real, runs: seq<Run>)
    requires k > 0.0
    ensures SuccessfulLatencies(ScaleRuns(k, runs)) == Scale(k, SuccessfulLatencies(runs))
  {
    if runs != [] {
      var n := |runs| - 1;
      ScaleRunsInit(k, runs);
      ScaleLatencies(k, runs[..n]);
      ScaleSnoc(k, SuccessfulLatencies(runs[..n]), runs[n].usage.latencyMs);
    }
  }

  lemma ScaleSnoc(k: real, s: seq<real>, v: real)
    ensures Scale(k, s + [v]) == Scale(k, s) + [Times(k, v)]
  {
  }

  lemma ScaleCosts(k: real, runs: seq<Run>)
    requires k > 0.0
    ensures Costs(ScaleRuns(k, runs)) == Costs(runs)
  {
  }

  // ----- Pairs -----

  ghost predicate ScaledMap(k: real, m: map<PairKey, Run>, m': map<PairKey, Run>)
    requires k > 0.0
  {
    m'.Keys == m.Keys && forall key :: key in m ==> m'[key] == ScaleRun(k, m[key])
  }

  lemma {:induction false} ScaleByKey(k: real, runs: seq<Run>)
    requires k > 0.0
    ensures ScaledMap(k, ByKey(runs), ByKey(ScaleRuns(k, runs)))
  {
    if runs != [] {
      ScaleRunsInit(k, runs);
      ScaleByKey(k, runs[..|runs| - 1]);
    }
  }

  lemma ScalePairUp(k: real, b: map<PairKey, Run>, c: map<PairKey, Run>, b': map<PairKey, Run>, c': map<PairKey, Run>)
    requires k > 0.0 && ScaledMap(k, b, b') && ScaledMap(k, c, c')
    ensures var p, p' := PairUp(b, c), PairUp(b', c');
            && p'.keys == p.keys && p'.unmatched == p.unmatched
            && p'.baseline == ScaleRuns(k, p.baseline) && p'.candidate == ScaleRuns(k, p.candidate)
  {
    var p, p' := PairUp(b, c), PairUp(b', c');
    assert |b'| == |b'.Keys| == |b| && |c'| == |c'.Keys| == |c|;
    forall i | 0 <= i < |p.keys|
      ensures p'.baseline[i] == ScaleRun(k, p.baseline[i]) && p'.candidate[i] == ScaleRun(k, p.candidate[i])
    {
      assert p.keys[i] in p.keys;
    }
  }

  lemma ScalePairs(k: real, x: Experiment, runs: seq<Run>)
    requires k > 0.0
    ensures var p, p' := PairsOf(x, runs), PairsOf(x, ScaleRuns(k, runs));
            && p'.keys == p.keys && p'.unmatched == p.unmatched
            && p'.baseline == ScaleRuns(k, p.baseline) && p'.candidate == ScaleRuns(k, p.candidate)
  {
    var b, c := RunsOf(runs, x.baselineVersionId), RunsOf(runs, x.candidateVersionId);
    ScaleRunsOf(k, runs, x.baselineVersionId);
    ScaleRunsOf(k, runs, x.candidateVersionId);
    ScaleByKey(k, b);
    ScaleByKey(k, c);
    ScalePairUp(k, ByKey(b), ByKey(c), ByKey(ScaleRuns(k, b)), ByKey(ScaleRuns(k, c)));
  }

  lemma {:induction false} ScaleBothOk(k: real, b: seq<Run>, c: seq<Run>)
    requires k > 0.0 && |b| == |c|
    ensures BothOk(ScaleRuns(k, b), ScaleRuns(k, c)) == (Scale(k, BothOk(b, c).0), Scale(k, BothOk(b, c).1))
  {
    if b != [] {
      var n := |b| - 1;
      ScaleRunsInit(k, b);
      ScaleRunsInit(k, c);
      ScaleBothOk(k, b[..n], c[..n]);
      var rest := BothOk(b[..n], c[..n]);
      ScaleSnoc(k, rest.0, b[n].usage.latencyMs);
      ScaleSnoc(k, rest.1, c[n].usage.latencyMs);
    }
  }

  // ----- Metrics and series -----

  lemma ScaleRateComparison(k: real, x: Experiment, o: RunOutcome, rate: Rate)
    requires k > 0.0
    ensures RateComparison(x, ScaleOutcome(k, o), rate) == RateComparison(x, o, rate)
  {
    var results := ResultsByRun(o.caseResults);
    ScaleRunsOf(k, o.runs, x.baselineVersionId);
    ScaleRunsOf(k, o.runs, x.candidateVersionId);
    ScaleObs(k, rate, RunsOf(o.runs, x.baselineVersionId), results);
    ScaleObs(k, rate, RunsOf(o.runs, x.candidateVersionId), results);
  }

  lemma ScaleP95(k: real, values: seq<real>)
    requires k > 0.0
    ensures P95(Scale(k, values)) == Times(k, P95(values))
  {
    SortScale(k, values);
    SortPermutes(values, RealLeq);
  }

  function ScaleComparison(k: real, mc: MetricComparison): MetricComparison {
    mc.(baselineValue := Times(k, mc.baselineValue), candidateValue := Times(k, mc.candidateValue))
  }

  lemma ScaleLatencyFigures(k: real, runs: seq<Run>)
    requires k > 0.0
    ensures LatencyMean(ScaleRuns(k, runs)) == Times(k, LatencyMean(runs))
    ensures LatencyP95(ScaleRuns(k, runs)) == Times(k, LatencyP95(runs))
  {
    ScaleLatencies(k, runs);
    MeanScale(k, SuccessfulLatencies(runs));
    ScaleP95(k, SuccessfulLatencies(runs));
  }

  /** Mean and 95th-percentile latency are multiplied by `k`; every other metric stays. */
  lemma MetricsScale(k: real, x: Experiment, o: RunOutcome, names: seq<string>)
    requires k > 0.0
    ensures var m, m', l := Metrics(x, o, names), Metrics(x, ScaleOutcome(k, o), names), |Rates(names)|;
            && |m'| == |m| == l + 3
            && (forall i :: 0 <= i < |m| && i != l && i != l + 1 ==> m'[i] == m[i])
            && m'[l] == ScaleComparison(k, m[l]) && m'[l + 1] == ScaleComparison(k, m[l + 1])
  {
    var rates := Rates(names);
    var b, c := RunsOf(o.runs, x.baselineVersionId), RunsOf(o.runs, x.candidateVersionId);
    ScaleRunsOf(k, o.runs, x.baselineVersionId);
    ScaleRunsOf(k, o.runs, x.candidateVersionId);
    ScaleLatencyFigures(k, b);
    ScaleLatencyFigures(k, c);
    ScaleCosts(k, b);
    ScaleCosts(k, c);
    forall i | 0 <= i < |rates|
      ensures Metrics(x, ScaleOutcome(k, o), names)[i] == Metrics(x, o, names)[i]
    {
      ScaleRateComparison(k, x, o, rates[i]);
    }
    UsageScales(k, x, o);
  }

  lemma UsageScales(k: real, x: Experiment, o: RunOutcome)
    requires k > 0.0
    ensures var u, u' := UsageComparisons(x, o), UsageComparisons(x, ScaleOutcome(k, o));
            u'[0] == ScaleComparison(k, u[0]) && u'[1] == ScaleComparison(k, u[1]) && u'[2] == u[2]
  {
    var b, c := RunsOf(o.runs, x.baselineVersionId), RunsOf(o.runs, x.candidateVersionId);
    ScaleRunsOf(k, o.runs, x.baselineVersionId);
    ScaleRunsOf(k, o.runs, x.candidateVersionId);
    ScaleLatencyFigures(k, b);
    ScaleLatencyFigures(k, c);
    ScaleCosts(k, b);
    ScaleCosts(k, c);
  }

  function ScaleSeries(k: real, s: PairedSeries): PairedSeries {
    s.(baseline := Scale(k, s.baseline), candidate := Scale(k, s.candidate))
  }

  lemma SeriesAt(names: seq<string>, p: Pairs, results: map<string, CaseResult>, i: nat)
    requires p.Aligned() && i < |Rates(names)| + 2
    ensures AllSeries(names, p, results)[i]
         == if i < |Rates(names)| then RateSeries(Rates(names)[i], p, results)
            else if i == |Rates(names)| then LatencySeries(p) else CostSeries(p)
  {
  }

  lemma RateSeriesScales(k: real, rate: Rate, p: Pairs, p': Pairs, results: map<string, CaseResult>)
    requires k > 0.0 && p' == p.(baseline := ScaleRuns(k, p.baseline), candidate := ScaleRuns(k, p.candidate))
    ensures RateSeries(rate, p', results) == RateSeries(rate, p, results)
  {
    ScaleObs(k, rate, p.baseline, results);
    ScaleObs(k, rate, p.candidate, results);
  }

  lemma UsageSeriesScale(k: real, p: Pairs, p': Pairs)
    requires k > 0.0 && p.Aligned()
    requires p' == p.(baseline := ScaleRuns(k, p.baseline), candidate := ScaleRuns(k, p.candidate))
    ensures LatencySeries(p') == ScaleSeries(k, LatencySeries(p)) && CostSeries(p') == CostSeries(p)
  {
    ScaleBothOk(k, p.baseline, p.candidate);
    ScaleCosts(k, p.baseline);
    ScaleCosts(k, p.candidate);
  }

  lemma SeriesScale(k: real, x: Experiment, o: RunOutcome, names: seq<string>, i: nat)
    requires k > 0.0 && i < |Rates(names)| + 2
    ensures var s, s' := SeriesOf(x, o, names)[i], SeriesOf(x, ScaleOutcome(k, o), names)[i];
            s' == if i == |Rates(names)| then ScaleSeries(k, s) else s
  {
    var p, p', results := PairsOf(x, o.runs), PairsOf(x, ScaleRuns(k, o.runs)), ResultsByRun(o.caseResults);
    ScalePairs(k, x, o.runs);
    SeriesAt(names, p, results, i);
    SeriesAt(names, p', results, i);
    if i < |Rates(names)| {
      RateSeriesScales(k, Rates(names)[i], p, p', results);
    } else {
      UsageSeriesScale(k, p, p');
    }
  }

  // ----- Evidence -----

  function ScaleEnd(k: real, v: Option<real>): Option<real> {
    if v.Some? then Some(Times(k, v.value)) else None
  }

  /** `e'` tells of the same pairs in the other unit, with both interval ends multiplied by `k`. */
  ghost predicate EvidenceScaled(k: real, e: MetricEvidence, e': MetricEvidence) {
    && e'.metric == e.metric && e'.nPairs == e.nPairs
    && e'.baseline.mean == Times(k, e.baseline.mean) && e'.candidate.mean == Times(k, e.candidate.mean)
    && e'.ciLow == ScaleEnd(k, e.ciLow) && e'.ciHigh == ScaleEnd(k, e.ciHigh)
  }

  lemma SeriesEvidenceScales(k: real, s: PairedSeries, i: nat, confidence: real, resamples: int, seed: int, rng: Rng,
                             e: MetricEvidence, e': MetricEvidence)
    requires k > 0.0
    requires SeriesEvidence(s, i, confidence, resamples, seed, rng) == Ok(e)
    requires SeriesEvidence(ScaleSeries(k, s), i, confidence, resamples, seed, rng) == Ok(e')
    ensures EvidenceScaled(k, e, e')
  {
    IntervalScales(k, s.baseline, s.candidate, confidence, resamples, seed + i, rng);
    MeanScale(k, s.baseline);
    MeanScale(k, s.candidate);
  }

  /** Only the evidence of mean latency changes, and it is rescaled. */
  lemma EvidenceScales(k: real, x: Experiment, o: RunOutcome, names: seq<string>, rng: Rng)
    requires k > 0.0
    ensures var e := FinalResult(x, o, names, rng).evidence;
            var e' := FinalResult(x, ScaleOutcome(k, o), names, rng).evidence;
            var l := |Rates(names)|;
            && |e'| == |e| == l + 2
            && (forall i :: 0 <= i < |e| && i != l ==> e'[i] == e[i])
            && EvidenceScaled(k, e[l], e'[l])
  {
    var e, e' := FinalResult(x, o, names, rng).evidence, FinalResult(x, ScaleOutcome(k, o), names, rng).evidence;
    var l := |Rates(names)|;
    EvidenceReady(x, o, names, rng);
    EvidenceReady(x, ScaleOutcome(k, o), names, rng);
    forall i | 0 <= i < l + 2
      ensures if i == l then EvidenceScaled(k, e[i], e'[i]) else e'[i] == e[i]
    {
      ItemsScale(k, x, o, names, rng, i);
    }
  }

  lemma ItemsScale(k: real, x: Experiment, o: RunOutcome, names: seq<string>, rng: Rng, i: nat)
    requires k > 0.0 && i < |Rates(names)| + 2
    ensures var e, e' := EvidenceFrom(x, o, names, rng), EvidenceFrom(x, ScaleOutcome(k, o), names, rng);
            && e.Ok? && e'.Ok? && i < |e.value| && i < |e'.value|
            && if i == |Rates(names)| then EvidenceScaled(k, e.value[i], e'.value[i]) else e'.value[i] == e.value[i]
  {
    var s, s' := SeriesOf(x, o, names), SeriesOf(x, ScaleOutcome(k, o), names);
    var e, e' := EvidenceFrom(x, o, names, rng), EvidenceFrom(x, ScaleOutcome(k, o), names, rng);
    EvidenceBuiltFor(x, o, names, rng);
    EvidenceBuiltFor(x, ScaleOutcome(k, o), names, rng);
    SeriesScale(k, x, o, names, i);
    if i == |Rates(names)| {
      SeriesEvidenceScales(
        k, s[i], i, DEFAULT_CONFIDENCE_LEVEL, DEFAULT_RESAMPLES, DEFAULT_SEED, rng, e.value[i], e'.value[i]);
    }
  }

  lemma EvidenceBuiltFor(x: Experiment, o: RunOutcome, names: seq<string>, rng: Rng)
    ensures var s, r := SeriesOf(x, o, names), EvidenceFrom(x, o, names, rng);
            && r.Ok? && |r.value| == |s| == |Rates(names)| + 2
            && forall i :: 0 <= i < |s| ==>
                 SeriesEvidence(s[i], i, DEFAULT_CONFIDENCE_LEVEL, DEFAULT_RESAMPLES, DEFAULT_SEED, rng)
                   == Ok(r.value[i])
  {
    var s := SeriesOf(x, o, names);
    forall i | 0 <= i < |s|
      ensures |s[i].baseline| == |s[i].candidate|
    {
      SeriesLengths(names, PairsOf(x, o.runs), ResultsByRun(o.caseResults), i);
    }
    EvidenceSeqBuilt(s, DEFAULT_CONFIDENCE_LEVEL, DEFAULT_RESAMPLES, DEFAULT_SEED, rng);
    var items := EvidenceFrom(x, o, names, rng).value;
    forall i | 0 <= i < |s|
      ensures SeriesEvidence(s[i], i, DEFAULT_CONFIDENCE_LEVEL, DEFAULT_RESAMPLES, DEFAULT_SEED, rng) == Ok(items[i])
    {
      assert ItemOf(items[i], s[i], i, DEFAULT_CONFIDENCE_LEVEL, DEFAULT_RESAMPLES, DEFAULT_SEED, rng);
    }
  }

  // ----- Verdicts -----

  lemma RatioScales(k: real, b: real, c: real)
    requires k > 0.0 && b != 0.0
    ensures Times(k, b) != 0.0
    ensures (Times(k, c) - Times(k, b)) / Times(k, b) == (c - b) / b
    ensures (Times(k, b) - Times(k, c)) / Times(k, b) == (b - c) / b
  {
    ScaleCancels(k, b, 0.0);
    var q := (c - b) / b;
    assert q * b == c - b;
    assert q * (k * b) == k * (q * b) == k * (c - b) == k * c - k * b;
    DivisionUnique(q, Times(k, b), Times(k, c) - Times(k, b));
    DivisionUnique(-q, Times(k, b), Times(k, b) - Times(k, c));
    DivisionUnique(-q, b, b - c);
  }

  lemma DivisionUnique(q: real, d: real, n: real)
    requires d != 0.0 && q * d == n
    ensures n / d == q
  {
  }

  lemma AdverseChangeScales(k: real, d: Direction, b: real, c: real, t: Option<real>)
    requires k > 0.0
    ensures AdverseChange(d, Times(k, b), Times(k, c), t) == AdverseChange(d, b, c, t)
  {
    ScaleCancels(k, b, 0.0);
    ScaleCancels(k, c, 0.0);
    if b != 0.0 {
      RatioScales(k, b, c);
    }
  }

  lemma BoundaryScales(k: real, t: real, ref: real, v: real)
    requires k > 0.0
    ensures Times(k, v) > Times(t, Times(k, ref)) <==> v > Times(t, ref)
    ensures Times(k, v) < -Times(t, Times(k, ref)) <==> v < -Times(t, ref)
  {
    var b := Times(t, ref);
    assert Times(t, Times(k, ref)) == Times(k, b) by {
      assert t * (k * ref) == k * (t * ref);
    }
    ScaleOrder(k, v, b);
    ScaleOrder(k, -b, v);
    assert Times(k, -b) == -Times(k, b);
  }

  lemma ConfirmationScales(k: real, e: MetricEvidence, e': MetricEvidence, d: Direction, t: Option<real>)
    requires k > 0.0 && EvidenceScaled(k, e, e')
    ensures CiConfirmsRegression(e', d, t) == CiConfirmsRegression(e, d, t)
  {
    if t.Some? && e.ciLow.Some? && e.ciHigh.Some? {
      BoundaryScales(k, t.value, e.baseline.mean, e.ciLow.value);
      BoundaryScales(k, t.value, e.baseline.mean, e.ciHigh.value);
    }
  }

  /** A verdict on rescaled figures has the old outcome. */
  lemma VerdictScales(
    k: real, mc: MetricComparison, t: Option<real>, e: Option<MetricEvidence>, e': Option<MetricEvidence>)
    requires k > 0.0 && e.Some? == e'.Some? && (e.Some? && e'.Some? ==> EvidenceScaled(k, e.value, e'.value))
    ensures var v, v' := VerdictOf(mc, t, e), VerdictOf(ScaleComparison(k, mc), t, e');
            && v'.Ok? == v.Ok?
            && (v.Ok? ==> v'.value.outcome == v.value.outcome && v'.value.adverseChange == v.value.adverseChange
                          && v'.value.metric == v.value.metric)
  {
    if DirectionOf(mc.metric).Ok? {
      var d := DirectionOf(mc.metric).value;
      AdverseChangeScales(k, d, mc.baselineValue, mc.candidateValue, t);
      if e.Some? {
        ConfirmationScales(k, e.value, e'.value, d, t);
      }
    }
  }

  lemma {:induction false} SameOutcomesSameLists(v: seq<MetricVerdict>, v': seq<MetricVerdict>, outcomes: set<Outcome>)
    requires |v| == |v'|
    requires forall i :: 0 <= i < |v| ==> v'[i].metric == v[i].metric && v'[i].outcome == v[i].outcome
    ensures WithOutcome(v, outcomes) == WithOutcome(v', outcomes)
  {
    if v != [] {
      SameOutcomesSameLists(v[..|v| - 1], v'[..|v'| - 1], outcomes);
    }
  }

  lemma RowUnchanged(
    k: real, x: Experiment, o: RunOutcome, names: seq<string>, rng: Rng, policy: Option<ReleasePolicy>, i: nat)
    requires k > 0.0 && NoDup(names) && i < |Metrics(x, o, names)| && i < |Metrics(x, ScaleOutcome(k, o), names)|
    ensures var r, r' := FinalResult(x, o, names, rng), FinalResult(x, ScaleOutcome(k, o), names, rng);
            var mc, mc' := r.metrics[i], r'.metrics[i];
            var v := VerdictOf(mc, ThresholdFor(policy, mc.metric), EvidenceFor(r.evidence, mc.metric));
            var v' := VerdictOf(mc', ThresholdFor(policy, mc'.metric), EvidenceFor(r'.evidence, mc'.metric));
            && v'.Ok? == v.Ok?
            && (v.Ok? ==> v'.value.outcome == v.value.outcome && v'.value.metric == v.value.metric)
  {
    var r, r', l := FinalResult(x, o, names, rng), FinalResult(x, ScaleOutcome(k, o), names, rng), |Rates(names)|;
    var mc := r.metrics[i];
    MetricsScale(k, x, o, names);
    RowEvidence(k, x, o, names, rng, i);
    if i == l || i == l + 1 {
      VerdictScales(k, mc, ThresholdFor(policy, mc.metric), EvidenceFor(r.evidence, mc.metric),
        EvidenceFor(r'.evidence, mc.metric));
    }
  }

  lemma RowEvidence(k: real, x: Experiment, o: RunOutcome, names: seq<string>, rng: Rng, i: nat)
    requires k > 0.0 && NoDup(names) && i < |Metrics(x, o, names)|
    ensures var l, m := |Rates(names)|, Metrics(x, o, names)[i].metric;
            var e, e' := EvidenceFor(FinalResult(x, o, names, rng).evidence, m),
              EvidenceFor(FinalResult(x, ScaleOutcome(k, o), names, rng).evidence, m);
            if i == l then e.Some? && e'.Some? && EvidenceScaled(k, e.value, e'.value)
            else e == e' && (i > l ==> e == None)
  {
    MetricsNamed(x, o, names);
    if i <= |Rates(names)| {
      PairedRow(k, x, o, names, rng, i);
    } else {
      UnpairedRow(x, o, names, rng, i);
      UnpairedRow(x, ScaleOutcome(k, o), names, rng, i);
    }
  }

  lemma PairedRow(k: real, x: Experiment, o: RunOutcome, names: seq<string>, rng: Rng, i: nat)
    requires k > 0.0 && NoDup(names) && i <= |Rates(names)|
    ensures var m := ExpectedMetricNames(names)[i];
            var e, e' := EvidenceFor(FinalResult(x, o, names, rng).evidence, m),
              EvidenceFor(FinalResult(x, ScaleOutcome(k, o), names, rng).evidence, m);
            e.Some? && e'.Some? && if i == |Rates(names)| then EvidenceScaled(k, e.value, e'.value) else e == e'
  {
    EvidenceScales(k, x, o, names, rng);
    EvidenceAt(x, o, names, rng, i);
    EvidenceAt(x, ScaleOutcome(k, o), names, rng, i);
  }

  lemma UnpairedRow(x: Experiment, o: RunOutcome, names: seq<string>, rng: Rng, i: nat)
    requires |Rates(names)| < i < |ExpectedMetricNames(names)|
    ensures EvidenceFor(FinalResult(x, o, names, rng).evidence, ExpectedMetricNames(names)[i]) == None
  {
    NoEvidenceRows(x, o, names, rng);
    assert ExpectedMetricNames(names)[i] == USAGE_METRICS[i - |Rates(names)|];
    assert USAGE_METRICS[1] == "latency_ms.p95" && USAGE_METRICS[2] == "cost_usd.total";
  }

  lemma EvidenceAt(x: Experiment, o: RunOutcome, names: seq<string>, rng: Rng, i: nat)
    requires NoDup(names) && i <= |Rates(names)|
    ensures var e := FinalResult(x, o, names, rng).evidence;
            i < |e| && EvidenceFor(e, ExpectedMetricNames(names)[i]) == Some(e[i])
  {
    FinalResultValid(x, o, names, rng);
    EvidenceNamed(x, o, names, rng);
    LookupAt(FinalResult(x, o, names, rng).evidence, i);
    NamesCoincide(names, i);
  }

  lemma NamesCoincide(names: seq<string>, i: nat)
    requires i <= |Rates(names)|
    ensures EvidenceNames(names)[i] == ExpectedMetricNames(names)[i]
  {
    if i == |Rates(names)| {
      assert EvidenceNames(names)[i] == "latency_ms.mean" == USAGE_METRICS[0];
    }
  }

  /** Two reports that agree row by row on names and outcomes. */
  ghost predicate SameRows(v: seq<MetricVerdict>, v': seq<MetricVerdict>) {
    |v'| == |v| && forall i :: 0 <= i < |v| ==> v'[i].metric == v[i].metric && v'[i].outcome == v[i].outcome
  }

  lemma RowsUnchanged(
    k: real, x: Experiment, o: RunOutcome, names: seq<string>, rng: Rng, policy: Option<ReleasePolicy>)
    requires k > 0.0 && NoDup(names)
    ensures var r, r' := FinalResult(x, o, names, rng), FinalResult(x, ScaleOutcome(k, o), names, rng);
            var v, v' := Verdicts(r.metrics, r.evidence, policy), Verdicts(r'.metrics, r'.evidence, policy);
            v.Ok? && v'.Ok? ==> SameRows(v.value, v'.value)
  {
    var r, r' := FinalResult(x, o, names, rng), FinalResult(x, ScaleOutcome(k, o), names, rng);
    var v, v' := Verdicts(r.metrics, r.evidence, policy), Verdicts(r'.metrics, r'.evidence, policy);
    VerdictsPointwise(r.metrics, r.evidence, policy);
    VerdictsPointwise(r'.metrics, r'.evidence, policy);
    MetricsScale(k, x, o, names);
    if v.Ok? && v'.Ok? {
      forall i | 0 <= i < |v.value|
        ensures v'.value[i].metric == v.value[i].metric && v'.value[i].outcome == v.value[i].outcome
      {
        RowUnchanged(k, x, o, names, rng, policy, i);
      }
    }
  }

  /** The parts of a report that decide and explain, equal in both. */
  ghost predicate SameReport(g: GateReport, g': GateReport) {
    && g'.decision == g.decision && g'.blocking == g.blocking && g'.advisories == g.advisories
    && SameRows(g.verdicts, g'.verdicts)
  }

  lemma GateVerdicts(r: EvaluationResult, policy: Option<ReleasePolicy>)
    requires EvaluateGate(r, policy).Ok?
    ensures Verdicts(r.metrics, r.evidence, policy) == Ok(EvaluateGate(r, policy).value.verdicts)
  {
  }

  /** Multiplying every latency of both versions by one positive constant, with the same random
      stream, leaves the outcome of every metric and the decision unchanged. */
  lemma UnitChangeKeepsDecision(
    k: real, x: Experiment, o: RunOutcome, names: seq<string>, rng: Rng, policy: Option<ReleasePolicy>)
    requires k > 0.0 && NoDup(names)
    requires EvaluateGate(FinalResult(x, o, names, rng), policy).Ok?
    ensures EvaluateGate(FinalResult(x, ScaleOutcome(k, o), names, rng), policy).Ok?
    ensures SameReport(EvaluateGate(FinalResult(x, o, names, rng), policy).value,
                       EvaluateGate(FinalResult(x, ScaleOutcome(k, o), names, rng), policy).value)
  {
    var r, r' := FinalResult(x, o, names, rng), FinalResult(x, ScaleOutcome(k, o), names, rng);
    GateFailsOnlyOnUnknownMetric(x, o, names, rng, policy);
    GateFailsOnlyOnUnknownMetric(x, ScaleOutcome(k, o), names, rng, policy);
    GateVerdicts(r, policy);
    GateVerdicts(r', policy);
    RowsUnchanged(k, x, o, names, rng, policy);
    var v, v' := EvaluateGate(r, policy).value.verdicts, EvaluateGate(r', policy).value.verdicts;
    SameOutcomesSameLists(v, v', {Regression});
    SameOutcomesSameLists(v, v', {Inconclusive, LowEvidence});
  }
}
