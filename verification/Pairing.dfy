/** Baseline and candidate runs paired by (case, repeat), and one evidence item per paired metric. */
module Pairing {
  import opened Basics
  import opened Sequences
  import opened Ordering
  import opened Domain
  import opened Observations
  import opened Bootstrap
  import Aggregate

  const DEFAULT_CONFIDENCE_LEVEL := 0.95
  const DEFAULT_RESAMPLES := 2000
  const DEFAULT_SEED := 0x5EED0501

  datatype PairedSeries = PairedSeries(
    metric: string,
    kind: MetricKind,
    baseline: seq<real>,
    candidate: seq<real>,
    matchedPairs: nat,
    comparablePairs: nat,
    droppedProviderFailures: nat,
    unmatchedRuns: int)

  /** The matched pairs in key order: `baseline[i]` and `candidate[i]` share `keys[i]`. */
  datatype Pairs = Pairs(keys: seq<PairKey>, baseline: seq<Run>, candidate: seq<Run>, unmatched: int) {
    predicate Aligned() { |keys| == |baseline| == |candidate| }
  }

  /** Pair two dictionaries on their common keys. */
  ghost function PairUp(b: map<PairKey, Run>, c: map<PairKey, Run>): (p: Pairs)
    ensures p.Aligned()
  {
    var keys := KeysInOrder(b.Keys * c.Keys);
    Pairs(keys, Select(b, keys), Select(c, keys), (|b| - |keys|) + (|c| - |keys|))
  }

  ghost function PairsOf(x: Experiment, runs: seq<Run>): (p: Pairs)
    ensures p.Aligned()
  {
    PairUp(ByKey(RunsOf(runs, x.baselineVersionId)), ByKey(RunsOf(runs, x.candidateVersionId)))
  }

  lemma PairUpSameKeys(b: map<PairKey, Run>, c: map<PairKey, Run>)
    requires b.Keys == c.Keys
    ensures var p := PairUp(b, c);
            && |p.keys| == |b| && p.unmatched == 0 && NoDup(p.keys)
            && (forall k :: k in p.keys <==> k in b)
            && (forall i :: 0 <= i < |p.keys| ==> p.keys[i] in b && p.baseline[i] == b[p.keys[i]])
            && (forall i :: 0 <= i < |p.keys| ==> p.keys[i] in c && p.candidate[i] == c[p.keys[i]])
  {
    var p := PairUp(b, c);
    assert b.Keys * c.Keys == b.Keys;
    assert |b.Keys| == |b| && |c.Keys| == |c|;
    forall i | 0 <= i < |p.keys|
      ensures p.keys[i] in b && p.keys[i] in c
    {
      assert p.keys[i] in p.keys;
    }
  }

  /** No version has two runs for one (case, repeat). */
  ghost predicate KeysDistinct(x: Experiment, runs: seq<Run>) {
    && NoDup(KeysOf(RunsOf(runs, x.baselineVersionId)))
    && NoDup(KeysOf(RunsOf(runs, x.candidateVersionId)))
  }

  method PairRuns(x: Experiment, runs: seq<Run>) returns (r: Result<Pairs>)
    ensures r.Ok? <==> KeysDistinct(x, runs)
    ensures r.Ok? ==> r.value == PairsOf(x, runs)
    ensures r.Err? ==> r.error == ConfigError
  {
    var b := RunsByKey(runs, x.baselineVersionId);
    if b.Err? {
      return Err(b.error);
    }
    var c := RunsByKey(runs, x.candidateVersionId);
    if c.Err? {
      return Err(c.error);
    }
    KeyOrder();
    var keys := SortSet(b.value.Keys * c.value.Keys, KeyLeq);
    r := Ok(Pairs(keys, Select(b.value, keys), Select(c.value, keys),
      (|b.value| - |keys|) + (|c.value| - |keys|)));
  }

  // ----- Series -----

  function RateSeries(rate: Rate, p: Pairs, results: map<string, CaseResult>): PairedSeries {
    PairedSeries(
      rate.Name(), rate.Kind(), ObsSeq(rate, p.baseline, results), ObsSeq(rate, p.candidate, results),
      |p.keys|, |p.keys|, 0, p.unmatched)
  }

  /** The latencies of the pairs in which neither side failed. */
  function BothOk(b: seq<Run>, c: seq<Run>): (r: (seq<real>, seq<real>))
    requires |b| == |c|
    ensures |r.0| == |r.1| <= |b|
  {
    if b == [] then ([], [])
    else
      var n := |b| - 1;
      var rest := BothOk(b[..n], c[..n]);
      if b[n].error.None? && c[n].error.None?
      then (rest.0 + [b[n].usage.latencyMs], rest.1 + [c[n].usage.latencyMs])
      else rest
  }

  function LatencySeries(p: Pairs): PairedSeries
    requires p.Aligned()
  {
    var ok := BothOk(p.baseline, p.candidate);
    PairedSeries("latency_ms.mean", Continuous, ok.0, ok.1, |p.keys|, |ok.0|, |p.keys| - |ok.0|, p.unmatched)
  }

  function CostSeries(p: Pairs): PairedSeries {
    PairedSeries("cost_usd.mean", Continuous, Aggregate.Costs(p.baseline), Aggregate.Costs(p.candidate),
                 |p.keys|, |p.keys|, 0, p.unmatched)
  }

  function RateSeriesSeq(rates: seq<Rate>, p: Pairs, results: map<string, CaseResult>): (s: seq<PairedSeries>)
    ensures |s| == |rates|
    ensures forall i :: 0 <= i < |s| ==> s[i] == RateSeries(rates[i], p, results)
  {
    seq(|rates|, i requires 0 <= i < |rates| => RateSeries(rates[i], p, results))
  }

  /** Every series of an outcome, in emission order. */
  function AllSeries(names: seq<string>, p: Pairs, results: map<string, CaseResult>): (s: seq<PairedSeries>)
    requires p.Aligned()
    ensures |s| == |Rates(names)| + 2
  {
    RateSeriesSeq(Rates(names), p, results) + [LatencySeries(p), CostSeries(p)]
  }

  /** The series of an outcome, one by one: the rates over all pairs, then latency over the pairs in which
      neither side failed, then cost over all pairs. */
  lemma SeriesSpeak(names: seq<string>, p: Pairs, results: map<string, CaseResult>, i: nat)
    requires p.Aligned() && i < |Rates(names)| + 2
    ensures var s, l := AllSeries(names, p, results)[i], |Rates(names)|;
            && s.matchedPairs == |p.keys| && s.unmatchedRuns == p.unmatched
            && s.comparablePairs == |s.baseline| == |s.candidate|
            && s.droppedProviderFailures == s.matchedPairs - s.comparablePairs
            && (i < l ==> s.metric == Rates(names)[i].Name() && s.comparablePairs == |p.keys|
                          && (s.kind == if Rates(names)[i].MeanScore? then Continuous else Binary)
                          && forall k :: 0 <= k < |p.keys| ==>
                               && s.baseline[k] == Obs(Rates(names)[i], p.baseline[k], results)
                               && s.candidate[k] == Obs(Rates(names)[i], p.candidate[k], results))
            && (i == l ==> s.metric == "latency_ms.mean" && s.kind == Continuous
                           && (s.baseline, s.candidate) == BothOk(p.baseline, p.candidate))
            && (i == l + 1 ==> s.metric == "cost_usd.mean" && s.kind == Continuous && s.comparablePairs == |p.keys|
                               && forall k :: 0 <= k < |p.keys| ==>
                                    && s.baseline[k] == p.baseline[k].usage.costUsd
                                    && s.candidate[k] == p.candidate[k].usage.costUsd)
  {
  }

  /** What pairing leaves out: the runs of either version at keys the other version lacks. */
  lemma UnmatchedRuns(b: map<PairKey, Run>, c: map<PairKey, Run>)
    ensures PairUp(b, c).unmatched == |b.Keys - c.Keys| + |c.Keys - b.Keys|
  {
    SizeWithin(b.Keys, c.Keys);
    SizeWithin(c.Keys, b.Keys);
    assert c.Keys * b.Keys == b.Keys * c.Keys;
  }

  lemma SizeWithin(a: set<PairKey>, b: set<PairKey>)
    ensures |a| == |a * b| + |a - b|
  {
    assert a == (a * b) + (a - b);
  }

  ghost predicate PairsReadable(rate: Rate, p: Pairs, results: map<string, CaseResult>) {
    AllReadable(rate, p.baseline, results) && AllReadable(rate, p.candidate, results)
  }

  /** The observations of a rate, or the error for a run it cannot be read off. */
  method Observe(rate: Rate, runs: seq<Run>, results: map<string, CaseResult>) returns (r: Result<seq<real>>)
    ensures r.Ok? <==> AllReadable(rate, runs, results)
    ensures r == if r.Ok? then Ok(ObsSeq(rate, runs, results)) else Err(ConfigError)
  {
    var values: seq<real> := [];
    for i := 0 to |runs|
      invariant |values| == i
      invariant forall k :: 0 <= k < i ==> Readable(rate, runs[k], results) && values[k] == Obs(rate, runs[k], results)
    {
      if !Readable(rate, runs[i], results) {
        return Err(ConfigError);
      }
      values := values + [Obs(rate, runs[i], results)];
    }
    assert values == ObsSeq(rate, runs, results);
    r := Ok(values);
  }

  method ObservePairs(rate: Rate, p: Pairs, results: map<string, CaseResult>) returns (r: Result<PairedSeries>)
    ensures r.Ok? <==> PairsReadable(rate, p, results)
    ensures r == if r.Ok? then Ok(RateSeries(rate, p, results)) else Err(ConfigError)
  {
    var b := Observe(rate, p.baseline, results);
    if b.Err? {
      return Err(b.error);
    }
    var c := Observe(rate, p.candidate, results);
    if c.Err? {
      return Err(c.error);
    }
    r := Ok(PairedSeries(rate.Name(), rate.Kind(), b.value, c.value, |p.keys|, |p.keys|, 0, p.unmatched));
  }

  ghost predicate RatesReadable(names: seq<string>, p: Pairs, results: map<string, CaseResult>) {
    forall i :: 0 <= i < |Rates(names)| ==> PairsReadable(Rates(names)[i], p, results)
  }

  lemma MoreRates(names: seq<string>, i: nat, p: Pairs, results: map<string, CaseResult>)
    requires i < |names|
    ensures RateSeriesSeq(Rates(names[..i + 1]), p, results)
         == RateSeriesSeq(Rates(names[..i]), p, results)
            + [RateSeries(PassRate(names[i]), p, results), RateSeries(MeanScore(names[i]), p, results)]
    ensures RatesReadable(names[..i + 1], p, results)
       <==> RatesReadable(names[..i], p, results)
            && PairsReadable(PassRate(names[i]), p, results) && PairsReadable(MeanScore(names[i]), p, results)
  {
    assert names[..i + 1][..i] == names[..i];
    var before, more := Rates(names[..i]), [PassRate(names[i]), MeanScore(names[i])];
    var after := Rates(names[..i + 1]);
    assert after == before + more;
    assert forall k :: 0 <= k < |before| ==> after[k] == before[k];
    assert after[|before|] == more[0] && after[|before| + 1] == more[1];
  }

  lemma {:induction false} FewerRatesReadable(names: seq<string>, i: nat, p: Pairs, results: map<string, CaseResult>)
    requires i <= |names| && RatesReadable(names, p, results)
    ensures RatesReadable(names[..i], p, results)
    decreases |names| - i
  {
    if i < |names| {
      FewerRatesReadable(names, i + 1, p, results);
      MoreRates(names, i, p, results);
    } else {
      assert names[..i] == names;
    }
  }

  lemma SuccessAlwaysReadable(p: Pairs, results: map<string, CaseResult>)
    ensures RatesReadable([], p, results)
    ensures RateSeriesSeq(Rates([]), p, results) == [RateSeries(SuccessRate, p, results)]
  {
    assert Rates([]) == [SuccessRate];
  }

  /** The loop over evaluator names. */
  method ObserveRates(
    names: seq<string>, p: Pairs, results: map<string, CaseResult>) returns (r: Result<seq<PairedSeries>>)
    ensures r.Ok? <==> RatesReadable(names, p, results)
    ensures r == if r.Ok? then Ok(RateSeriesSeq(Rates(names), p, results)) else Err(ConfigError)
  {
    SuccessAlwaysReadable(p, results);
    var series := [RateSeries(SuccessRate, p, results)];
    assert names[..0] == [];
    for i := 0 to |names|
      invariant RatesReadable(names[..i], p, results)
      invariant series == RateSeriesSeq(Rates(names[..i]), p, results)
    {
      MoreRates(names, i, p, results);
      var passes := ObservePairs(PassRate(names[i]), p, results);
      var scores := ObservePairs(MeanScore(names[i]), p, results);
      if passes.Err? || scores.Err? {
        if RatesReadable(names, p, results) {
          FewerRatesReadable(names, i + 1, p, results);
        }
        return Err(ConfigError);
      }
      series := series + [passes.value, scores.value];
    }
    assert names[..|names|] == names;
    r := Ok(series);
  }

  /** `paired_observations`. */
  method PairedObservations(x: Experiment, o: RunOutcome, names: seq<string>) returns (r: Result<seq<PairedSeries>>)
    ensures r.Ok? <==>
              NoDup(names) && KeysDistinct(x, o.runs)
              && RatesReadable(names, PairsOf(x, o.runs), ResultsByRun(o.caseResults))
    ensures r.Ok? ==> r.value == AllSeries(names, PairsOf(x, o.runs), ResultsByRun(o.caseResults))
    ensures r.Err? ==> r.error == ConfigError
  {
    if exists i, j :: 0 <= i < j < |names| && names[i] == names[j] {
      return Err(ConfigError);
    }
    var p := PairRuns(x, o.runs);
    if p.Err? {
      return Err(p.error);
    }
    var rates := ObserveRates(names, p.value, ResultsByRun(o.caseResults));
    if rates.Err? {
      return Err(rates.error);
    }
    r := Ok(rates.value + [LatencySeries(p.value), CostSeries(p.value)]);
  }

  // ----- Evidence for every series -----

  function SeriesEvidence(
    s: PairedSeries, i: nat, confidence: real, resamples: int, seed: int, rng: Rng): Result<MetricEvidence>
  {
    EvidenceOf(
      s.metric, s.kind, s.baseline, s.candidate, confidence, resamples, seed + i, s.droppedProviderFailures, rng)
  }

  /** One item per series; the i-th draws from its own stream, seeded `seed + i`. */
  function EvidenceSeq(
    series: seq<PairedSeries>, confidence: real, resamples: int, seed: int, rng: Rng): Result<seq<MetricEvidence>>
  {
    if series == [] then Ok([])
    else
      var n := |series| - 1;
      var before :- EvidenceSeq(series[..n], confidence, resamples, seed, rng);
      var e :- SeriesEvidence(series[n], n, confidence, resamples, seed, rng);
      Ok(before + [e])
  }

  ghost predicate SeriesAligned(series: seq<PairedSeries>) {
    forall i :: 0 <= i < |series| ==> |series[i].baseline| == |series[i].candidate|
  }

  /** `e` is the item of the i-th series. */
  ghost predicate ItemOf(
    e: MetricEvidence, s: PairedSeries, i: nat, confidence: real, resamples: int, seed: int, rng: Rng)
  {
    SeriesEvidence(s, i, confidence, resamples, seed, rng) == Ok(e) && e.Valid()
  }

  /** One item for each series, in order; the i-th speaks of the i-th, on the stream seeded `seed + i`. */
  ghost predicate EachSpeaks(
    items: seq<MetricEvidence>, series: seq<PairedSeries>, confidence: real, resamples: int, seed: int, rng: Rng)
  {
    |items| == |series| && forall i :: 0 <= i < |series| ==>
      ItemSpeaks(items[i], series[i], confidence, resamples, seed + i, rng)
  }

  ghost predicate ItemSpeaks(
    e: MetricEvidence, s: PairedSeries, confidence: real, resamples: int, seed: int, rng: Rng)
  {
    && |s.baseline| == |s.candidate|
    && SpeaksOf(e, s.metric, s.kind, s.baseline, s.candidate, confidence, resamples, seed,
                s.droppedProviderFailures, rng)
  }

  lemma ItemBuilt(s: PairedSeries, i: nat, confidence: real, resamples: int, seed: int, rng: Rng)
    requires |s.baseline| == |s.candidate| && 0.0 < confidence < 1.0 && resamples >= 1
    ensures var r := SeriesEvidence(s, i, confidence, resamples, seed, rng);
            r.Ok? && ItemOf(r.value, s, i, confidence, resamples, seed, rng)
  {
    EvidenceNeverRejected(
      s.metric, s.kind, s.baseline, s.candidate, confidence, resamples, seed + i, s.droppedProviderFailures, rng);
  }

  lemma SeriesItemSpeaks(
    s: PairedSeries, i: nat, e: MetricEvidence, confidence: real, resamples: int, seed: int, rng: Rng)
    requires SeriesEvidence(s, i, confidence, resamples, seed, rng) == Ok(e)
    ensures ItemSpeaks(e, s, confidence, resamples, seed + i, rng)
  {
    EvidenceSpeaks(
      s.metric, s.kind, s.baseline, s.candidate, confidence, resamples, seed + i, s.droppedProviderFailures, rng);
  }

  /** On aligned series with usable settings, every item is built, in order, and valid. */
  lemma {:induction false} EvidenceSeqBuilt(
    series: seq<PairedSeries>, confidence: real, resamples: int, seed: int, rng: Rng)
    requires SeriesAligned(series) && 0.0 < confidence < 1.0 && resamples >= 1
    ensures var r := EvidenceSeq(series, confidence, resamples, seed, rng);
            && r.Ok? && |r.value| == |series|
            && forall i :: 0 <= i < |series| ==> ItemOf(r.value[i], series[i], i, confidence, resamples, seed, rng)
  {
    if series != [] {
      var n := |series| - 1;
      var before := series[..n];
      EvidenceSeqBuilt(before, confidence, resamples, seed, rng);
      ItemBuilt(series[n], n, confidence, resamples, seed, rng);
      var items := EvidenceSeq(series, confidence, resamples, seed, rng).value;
      forall i | 0 <= i < n
        ensures ItemOf(items[i], series[i], i, confidence, resamples, seed, rng)
      {
        assert before[i] == series[i];
      }
    }
  }

  lemma EvidenceSeqSpeaks(series: seq<PairedSeries>, confidence: real, resamples: int, seed: int, rng: Rng)
    requires SeriesAligned(series) && 0.0 < confidence < 1.0 && resamples >= 1
    ensures var r := EvidenceSeq(series, confidence, resamples, seed, rng);
            r.Ok? && EachSpeaks(r.value, series, confidence, resamples, seed, rng)
  {
    EvidenceSeqBuilt(series, confidence, resamples, seed, rng);
    var items := EvidenceSeq(series, confidence, resamples, seed, rng).value;
    forall i | 0 <= i < |series|
      ensures ItemSpeaks(items[i], series[i], confidence, resamples, seed + i, rng)
    {
      assert ItemOf(items[i], series[i], i, confidence, resamples, seed, rng);
      SeriesItemSpeaks(series[i], i, items[i], confidence, resamples, seed, rng);
    }
  }

  lemma SeriesAreAligned(names: seq<string>, p: Pairs, results: map<string, CaseResult>)
    requires p.Aligned()
    ensures SeriesAligned(AllSeries(names, p, results))
  {
    forall i | 0 <= i < |AllSeries(names, p, results)|
      ensures var s := AllSeries(names, p, results)[i]; |s.baseline| == |s.candidate|
    {
      SeriesSpeak(names, p, results, i);
    }
  }

  /** `build_statistical_evidence`. */
  method BuildStatisticalEvidence(
    x: Experiment, o: RunOutcome, names: seq<string>, confidence: real, resamples: int, seed: int, rng: Rng
  ) returns (r: Result<seq<MetricEvidence>>)
    ensures var p, results := PairsOf(x, o.runs), ResultsByRun(o.caseResults);
            if NoDup(names) && KeysDistinct(x, o.runs) && RatesReadable(names, p, results)
            then r == EvidenceSeq(AllSeries(names, p, results), confidence, resamples, seed, rng)
            else r == Err(ConfigError)
    ensures r.Ok? && 0.0 < confidence < 1.0 && resamples >= 1 ==>
              EachSpeaks(r.value, AllSeries(names, PairsOf(x, o.runs), ResultsByRun(o.caseResults)), confidence,
                         resamples, seed, rng)
  {
    if 0.0 < confidence < 1.0 && resamples >= 1 {
      SeriesAreAligned(names, PairsOf(x, o.runs), ResultsByRun(o.caseResults));
      EvidenceSeqSpeaks(
        AllSeries(names, PairsOf(x, o.runs), ResultsByRun(o.caseResults)), confidence, resamples, seed, rng);
    }
    var series := PairedObservations(x, o, names);
    if series.Err? {
      return Err(series.error);
    }
    r := EvidenceSeq(series.value, confidence, resamples, seed, rng);
  }
}
