/** The deterministic usage metrics: what they compare, what the gate makes of them, and how total cost
    and the paired evidence on cost agree. */
module Usage {
  import opened Basics
  import opened Sequences
  import opened Ordering
  import opened Domain
  import opened Observations
  import opened Aggregate
  import opened Pairing
  import opened Grid
  import opened Bootstrap
  import opened Gate
  import opened Guard
  import opened Pipeline

  // ----- The gate on metrics without evidence -----

  /** A value grew by more than a threshold tolerates; any growth from zero is too much. */
  predicate Exceeds(before: real, after: real, t: real) {
    if before == 0.0 then after > 0.0 else after > before + Times(t, before)
  }

  lemma NoGrowthNeverExceeds(before: real, after: real, t: real)
    requires 0.0 <= after <= before && t >= 0.0
    ensures !Exceeds(before, after, t)
  {
    ProductNonNegative(t, before);
  }

  /** This metric of the result, found by name: it blocks exactly when it is gated and its value grew by
      more than the threshold tolerates. */
  ghost predicate BlocksOnGrowth(result: EvaluationResult, report: GateReport, p: ReleasePolicy, m: string) {
    exists i ::
      && 0 <= i < |result.metrics| && result.metrics[i].metric == m
      && (m in report.blocking <==>
            m in p.thresholds
            && Exceeds(result.metrics[i].baselineValue, result.metrics[i].candidateValue, p.thresholds[m]))
  }

  predicate Deterministic(m: string) { m == "latency_ms.p95" || m == "cost_usd.total" }

  lemma DeterministicRow(x: Experiment, o: RunOutcome, names: seq<string>, rng: Rng, m: string) returns (i: nat)
    requires NoDup(names) && Deterministic(m)
    ensures var result := FinalResult(x, o, names, rng);
            && i < |result.metrics| && result.metrics[i].metric == m
            && DirectionOf(m) == Ok(LowerIsBetter) && EvidenceFor(result.evidence, m) == None
            && result.metrics[i].baselineValue >= 0.0 && result.metrics[i].candidateValue >= 0.0
            && forall j :: 0 <= j < |result.metrics| && result.metrics[j].metric == m ==> j == i
  {
    var k := if m == "latency_ms.p95" then 1 else 2;
    i := |Rates(names)| + k;
    assert Metrics(x, o, names)[i] == UsageComparisons(x, o)[k];
    UsageNonNegative(RunsOf(o.runs, x.baselineVersionId));
    UsageNonNegative(RunsOf(o.runs, x.candidateVersionId));
    NoEvidenceRows(x, o, names, rng);
    FinalResultValid(x, o, names, rng);
  }

  lemma RowBlocksOnGrowth(result: EvaluationResult, p: ReleasePolicy, i: nat, m: string)
    requires i < |result.metrics| && result.metrics[i].metric == m && p.Valid()
    requires DirectionOf(m) == Ok(LowerIsBetter) && EvidenceFor(result.evidence, m) == None
    requires result.metrics[i].baselineValue >= 0.0 && result.metrics[i].candidateValue >= 0.0
    ensures Blocks(result, p, i) <==>
              m in p.thresholds
              && Exceeds(result.metrics[i].baselineValue, result.metrics[i].candidateValue, p.thresholds[m])
  {
    if m in p.thresholds {
      ProductNonNegative(p.thresholds[m], result.metrics[i].baselineValue);
    }
  }

  /** On every pipeline result, the gate blocks on p95 latency and on total cost exactly when they grew by
      more than the threshold tolerates. */
  lemma DeterministicBlocks(
    x: Experiment, o: RunOutcome, names: seq<string>, rng: Rng, policy: ReleasePolicy, m: string)
    requires NoDup(names) && policy.Valid() && Deterministic(m)
    requires EvaluateGate(FinalResult(x, o, names, rng), Some(policy)).Ok?
    ensures var result := FinalResult(x, o, names, rng);
            BlocksOnGrowth(result, EvaluateGate(result, Some(policy)).value, policy, m)
  {
    var result := FinalResult(x, o, names, rng);
    var i := DeterministicRow(x, o, names, rng, m);
    MetricsNonNegative(x, o, names, rng);
    DecisionMeaning(result, policy);
    RowBlocksOnGrowth(result, policy, i, m);
  }

  /** So a candidate that is no slower, or no dearer, never blocks on it. */
  lemma NoGrowthNeverBlocks(
    x: Experiment, o: RunOutcome, names: seq<string>, rng: Rng, policy: ReleasePolicy, m: string)
    requires NoDup(names) && policy.Valid() && Deterministic(m)
    requires EvaluateGate(FinalResult(x, o, names, rng), Some(policy)).Ok?
    requires var metrics := FinalResult(x, o, names, rng).metrics;
             forall i :: 0 <= i < |metrics| && metrics[i].metric == m ==>
               metrics[i].candidateValue <= metrics[i].baselineValue
    ensures m !in EvaluateGate(FinalResult(x, o, names, rng), Some(policy)).value.blocking
  {
    var result := FinalResult(x, o, names, rng);
    var i := DeterministicRow(x, o, names, rng, m);
    DeterministicBlocks(x, o, names, rng, policy, m);
    if m in policy.thresholds {
      NoGrowthNeverExceeds(result.metrics[i].baselineValue, result.metrics[i].candidateValue, policy.thresholds[m]);
    }
  }

  /** Stated on the runs: with `vb` and `vc` the 95th percentiles of the two versions' latencies, gated p95
      latency blocks exactly when `vc` exceeds `vb` by more than the threshold tolerates. */
  lemma SlowTailBlocksExactly(
    x: Experiment, o: RunOutcome, names: seq<string>, rng: Rng, policy: ReleasePolicy, vb: real, vc: real)
    requires NoDup(names) && policy.Valid()
    requires EvaluateGate(FinalResult(x, o, names, rng), Some(policy)).Ok?
    requires IsP95(vb, RunsOf(o.runs, x.baselineVersionId)) && IsP95(vc, RunsOf(o.runs, x.candidateVersionId))
    ensures "latency_ms.p95" in EvaluateGate(FinalResult(x, o, names, rng), Some(policy)).value.blocking <==>
              "latency_ms.p95" in policy.thresholds && Exceeds(vb, vc, policy.thresholds["latency_ms.p95"])
  {
    var result, m := FinalResult(x, o, names, rng), "latency_ms.p95";
    DeterministicBlocks(x, o, names, rng, policy, m);
    UsageRows(x, o, names);
    var i :| 0 <= i < |result.metrics| && result.metrics[i].metric == m
             && (m in EvaluateGate(result, Some(policy)).value.blocking <==>
                   m in policy.thresholds
                   && Exceeds(result.metrics[i].baselineValue, result.metrics[i].candidateValue, policy.thresholds[m]));
    assert UsageCompared(x, o, result.metrics[i]);
    IsP95Unique(vb, result.metrics[i].baselineValue, RunsOf(o.runs, x.baselineVersionId));
    IsP95Unique(vc, result.metrics[i].candidateValue, RunsOf(o.runs, x.candidateVersionId));
  }

  /** Likewise for what all the runs of a version cost together. */
  lemma DearerBlocksExactly(x: Experiment, o: RunOutcome, names: seq<string>, rng: Rng, policy: ReleasePolicy)
    requires NoDup(names) && policy.Valid()
    requires EvaluateGate(FinalResult(x, o, names, rng), Some(policy)).Ok?
    ensures var b, c := RunsOf(o.runs, x.baselineVersionId), RunsOf(o.runs, x.candidateVersionId);
            "cost_usd.total" in EvaluateGate(FinalResult(x, o, names, rng), Some(policy)).value.blocking <==>
              "cost_usd.total" in policy.thresholds
              && Exceeds(AccumulatedCost(b), AccumulatedCost(c), policy.thresholds["cost_usd.total"])
  {
    var result, m := FinalResult(x, o, names, rng), "cost_usd.total";
    DeterministicBlocks(x, o, names, rng, policy, m);
    UsageRows(x, o, names);
    var i :| 0 <= i < |result.metrics| && result.metrics[i].metric == m
             && (m in EvaluateGate(result, Some(policy)).value.blocking <==>
                   m in policy.thresholds
                   && Exceeds(result.metrics[i].baselineValue, result.metrics[i].candidateValue, policy.thresholds[m]));
    assert UsageCompared(x, o, result.metrics[i]);
  }

  // ----- Total cost and the evidence on cost -----

  lemma TotalOfMean(s: seq<real>)
    requires s != []
    ensures Times(|s| as real, Mean(s)) == Sum(s)
  {
    var n := |s| as real;
    assert n * (Sum(s) / n) == Sum(s);
  }

  /** The runs of one version at the pairs' keys cost, together, what all of them do. */
  lemma CostsRearranged(runs: seq<Run>, keys: seq<PairKey>, mine: seq<Run>)
    requires NoDup(KeysOf(runs)) && NoDup(keys) && Selected(runs, keys, mine)
    requires forall k :: k in keys <==> k in KeysOf(runs)
    ensures Sum(Costs(mine)) == AccumulatedCost(runs)
  {
    ByKeyFacts(runs);
    forall i, j | 0 <= i < |keys| && 0 <= j < |runs| && keys[i] == KeysOf(runs)[j]
      ensures Costs(mine)[i] == Costs(runs)[j]
    {
      assert mine[i] == runs[j];
    }
    SumByKeys(keys, Costs(mine), KeysOf(runs), Costs(runs));
    CostTotalIsAccumulated(runs);
  }

  lemma PairedCosts(x: Experiment, runs: seq<Run>, n: nat)
    requires x.Valid() && FullGrid(x, runs, n)
    ensures var p := PairsOf(x, runs);
            && |p.keys| == n
            && Times(n as real, Mean(Costs(p.baseline))) == AccumulatedCost(RunsOf(runs, x.baselineVersionId))
            && Times(n as real, Mean(Costs(p.candidate))) == AccumulatedCost(RunsOf(runs, x.candidateVersionId))
  {
    var p := PairsOf(x, runs);
    GridSplits(x, runs, n);
    GridPairs(x, runs, n);
    CostsRearranged(runs[..n], p.keys, p.baseline);
    CostsRearranged(runs[n..], p.keys, p.candidate);
    TotalOfMean(Costs(p.baseline));
    TotalOfMean(Costs(p.candidate));
  }

  /** The row of mean cost: evidence over all pairs. */
  lemma CostRow(x: Experiment, o: RunOutcome, names: seq<string>, rng: Rng)
    ensures var e, k, p := FinalResult(x, o, names, rng).evidence, |Rates(names)| + 1, PairsOf(x, o.runs);
            && k < |e| && e[k].metric == "cost_usd.mean" && IsEvidence(e[k], Costs(p.baseline), Costs(p.candidate))
            && e[k].nPairs == |p.keys| && e[k].droppedProviderFailures == 0
            && e[k].baseline.mean == Mean(Costs(p.baseline)) && e[k].candidate.mean == Mean(Costs(p.candidate))
  {
    var e, k, p := FinalResult(x, o, names, rng).evidence, |Rates(names)| + 1, PairsOf(x, o.runs);
    EvidenceReady(x, o, names, rng);
    assert SeriesOf(x, o, names)[k] == CostSeries(p);
    EvidenceFacts(e[k], Costs(p.baseline), Costs(p.candidate));
  }

  /** The item says that `n` pairs cost `b` and `c` together. */
  ghost predicate CostsTogether(e: MetricEvidence, n: nat, b: real, c: real) {
    && e.metric == "cost_usd.mean" && e.nPairs == n && e.droppedProviderFailures == 0
    && Times(n as real, e.baseline.mean) == b && Times(n as real, e.candidate.mean) == c
  }

  /** On a full grid the paired evidence on cost and the total-cost metric count the same money: `n` times
      the evidence's mean is the metric's value, on either side. */
  lemma CostEvidenceAddsUp(x: Experiment, o: RunOutcome, names: seq<string>, n: nat, rng: Rng)
    requires GridOutcome(x, o, names, n)
    ensures var e, k := FinalResult(x, o, names, rng).evidence, |Rates(names)| + 1;
            && k < |e|
            && CostsTogether(e[k], n, AccumulatedCost(RunsOf(o.runs, x.baselineVersionId)),
                             AccumulatedCost(RunsOf(o.runs, x.candidateVersionId)))
  {
    CostRow(x, o, names, rng);
    PairedCosts(x, o.runs, n);
  }
}
