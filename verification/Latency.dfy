/** The two latency means: when the paired evidence and the aggregate speak of the same runs. */
module Latency {
  import opened Basics
  import opened Sequences
  import opened Ordering
  import opened Domain
  import opened Observations
  import opened Aggregate
  import opened Pairing
  import opened Grid
  import opened Bootstrap
  import opened Gate
  import opened Guard
  import opened Pipeline

  /** In every pair, both sides failed or neither did. */
  ghost predicate FailTogether(b: seq<Run>, c: seq<Run>)
    requires |b| == |c|
  {
    forall i :: 0 <= i < |b| ==> (b[i].error.Some? <==> c[i].error.Some?)
  }

  lemma {:induction false} BothOkIsShorter(b: seq<Run>, c: seq<Run>)
    requires |b| == |c|
    ensures |BothOk(b, c).0| <= |SuccessfulLatencies(b)| && |BothOk(b, c).1| <= |SuccessfulLatencies(c)|
  {
    if b != [] {
      BothOkIsShorter(b[..|b| - 1], c[..|c| - 1]);
    }
  }

  /** The evidence reads the very latencies the aggregate averages exactly when failures come in
      pairs: one failure on one side alone removes the other side's latency from the evidence only. */
  lemma {:induction false} SameLatenciesExactly(b: seq<Run>, c: seq<Run>)
    requires |b| == |c|
    ensures BothOk(b, c) == (SuccessfulLatencies(b), SuccessfulLatencies(c)) <==> FailTogether(b, c)
  {
    if b != [] {
      var n := |b| - 1;
      SameLatenciesExactly(b[..n], c[..n]);
      BothOkIsShorter(b[..n], c[..n]);
      assert FailTogether(b, c) <==> FailTogether(b[..n], c[..n]) && (b[n].error.Some? <==> c[n].error.Some?) by {
        assert forall i :: 0 <= i < n ==> b[..n][i] == b[i] && c[..n][i] == c[i];
      }
      var rest := BothOk(b[..n], c[..n]);
      if b[n].error.None? && c[n].error.None? {
        SnocInjective(rest.0, SuccessfulLatencies(b[..n]), b[n].usage.latencyMs);
        SnocInjective(rest.1, SuccessfulLatencies(c[..n]), c[n].usage.latencyMs);
      }
    }
  }

  lemma SnocInjective(a: seq<real>, b: seq<real>, v: real)
    ensures a + [v] == b + [v] <==> a == b
  {
    if a + [v] == b + [v] {
      assert a == (a + [v])[..|a|] && b == (b + [v])[..|b|];
      assert |a + [v]| == |b + [v]|;
    }
  }

  // ----- Sorted key order and execution order give one mean -----

  /** What a run adds to the total latency: a failed one adds nothing. */
  function LatencyShare(r: Run): real { if r.error.None? then r.usage.latencyMs else 0.0 }

  function LatencyShares(runs: seq<Run>): (s: seq<real>)
    ensures |s| == |runs| && forall i :: 0 <= i < |s| ==> s[i] == LatencyShare(runs[i])
  {
    seq(|runs|, i requires 0 <= i < |runs| => LatencyShare(runs[i]))
  }

  lemma {:induction false} SuccessfulTotals(runs: seq<Run>, results: map<string, CaseResult>)
    ensures Sum(SuccessfulLatencies(runs)) == Sum(LatencyShares(runs))
    ensures |SuccessfulLatencies(runs)| as real == Sum(ObsSeq(SuccessRate, runs, results))
  {
    if runs != [] {
      var n := |runs| - 1;
      SuccessfulTotals(runs[..n], results);
      assert LatencyShares(runs)[..n] == LatencyShares(runs[..n]);
      assert ObsSeq(SuccessRate, runs, results)[..n] == ObsSeq(SuccessRate, runs[..n], results);
      SumSnoc(SuccessfulLatencies(runs[..n]), runs[n].usage.latencyMs);
    }
  }

  lemma SharesRearranged(runs: seq<Run>, keys: seq<PairKey>, mine: seq<Run>, results: map<string, CaseResult>)
    requires NoDup(KeysOf(runs)) && NoDup(keys) && Selected(runs, keys, mine)
    requires forall k :: k in keys <==> k in KeysOf(runs)
    ensures Sum(LatencyShares(mine)) == Sum(LatencyShares(runs))
    ensures Sum(ObsSeq(SuccessRate, mine, results)) == Sum(ObsSeq(SuccessRate, runs, results))
  {
    ByKeyFacts(runs);
    forall i, j | 0 <= i < |keys| && 0 <= j < |runs| && keys[i] == KeysOf(runs)[j]
      ensures mine[i] == runs[j]
    {
    }
    SumByKeys(keys, LatencyShares(mine), KeysOf(runs), LatencyShares(runs));
    SumByKeys(keys, ObsSeq(SuccessRate, mine, results), KeysOf(runs), ObsSeq(SuccessRate, runs, results));
  }

  lemma LatencyMeanRearranged(runs: seq<Run>, keys: seq<PairKey>, mine: seq<Run>)
    requires NoDup(KeysOf(runs)) && NoDup(keys) && Selected(runs, keys, mine)
    requires forall k :: k in keys <==> k in KeysOf(runs)
    ensures LatencyMean(mine) == LatencyMean(runs)
  {
    SharesRearranged(runs, keys, mine, map[]);
    SuccessfulTotals(runs, map[]);
    SuccessfulTotals(mine, map[]);
  }

  /** On a full grid whose failures come in pairs, the latency evidence has the aggregate's means. */
  lemma LatencyMeansAgree(x: Experiment, o: RunOutcome, names: seq<string>, n: nat)
    requires GridOutcome(x, o, names, n)
    requires var p := PairsOf(x, o.runs); FailTogether(p.baseline, p.candidate)
    ensures var p := PairsOf(x, o.runs);
            && Mean(BothOk(p.baseline, p.candidate).0) == LatencyMean(RunsOf(o.runs, x.baselineVersionId))
            && Mean(BothOk(p.baseline, p.candidate).1) == LatencyMean(RunsOf(o.runs, x.candidateVersionId))
  {
    var p := PairsOf(x, o.runs);
    GridSplits(x, o.runs, n);
    GridPairs(x, o.runs, n);
    SameLatenciesExactly(p.baseline, p.candidate);
    LatencyMeanRearranged(o.runs[..n], p.keys, p.baseline);
    LatencyMeanRearranged(o.runs[n..], p.keys, p.candidate);
  }

  // ----- What the gate makes of it -----

  /** The position of mean latency among metrics and evidence. */
  function LatencyIndex(names: seq<string>): nat { |Rates(names)| }

  lemma LatencyValues(x: Experiment, o: RunOutcome, names: seq<string>)
    ensures var ms := Metrics(x, o, names);
            && LatencyIndex(names) < |ms|
            && ms[LatencyIndex(names)].baselineValue == LatencyMean(RunsOf(o.runs, x.baselineVersionId))
            && ms[LatencyIndex(names)].candidateValue == LatencyMean(RunsOf(o.runs, x.candidateVersionId))
  {
    assert Metrics(x, o, names)[LatencyIndex(names)] == UsageComparisons(x, o)[0];
  }

  lemma {:induction false} BothOkCounts(b: seq<Run>, c: seq<Run>)
    requires |b| == |c|
    ensures |BothOk(b, c).0| == |SuccessfulLatencies(b)| && |BothOk(b, c).1| == |SuccessfulLatencies(c)|
       <==> FailTogether(b, c)
  {
    if b != [] {
      var n := |b| - 1;
      BothOkCounts(b[..n], c[..n]);
      BothOkIsShorter(b[..n], c[..n]);
      assert FailTogether(b, c) <==> FailTogether(b[..n], c[..n]) && (b[n].error.Some? <==> c[n].error.Some?) by {
        assert forall i :: 0 <= i < n ==> b[..n][i] == b[i] && c[..n][i] == c[i];
      }
    }
  }

  lemma SuccessfulCountRearranged(runs: seq<Run>, keys: seq<PairKey>, mine: seq<Run>)
    requires NoDup(KeysOf(runs)) && NoDup(keys) && Selected(runs, keys, mine)
    requires forall k :: k in keys <==> k in KeysOf(runs)
    ensures |SuccessfulLatencies(mine)| == |SuccessfulLatencies(runs)|
  {
    SharesRearranged(runs, keys, mine, map[]);
    SuccessfulTotals(runs, map[]);
    SuccessfulTotals(mine, map[]);
  }

  /** In a gated result, the latency evidence covers every latency that the compared means cover
      exactly when failures come in pairs. */
  lemma EvidenceCoversLatenciesExactly(x: Experiment, o: RunOutcome, names: seq<string>, n: nat, rng: Rng)
    requires GridOutcome(x, o, names, n)
    ensures var result, p, l := FinalResult(x, o, names, rng), PairsOf(x, o.runs), LatencyIndex(names);
            && l < |result.evidence|
            && (result.evidence[l].nPairs == |SuccessfulLatencies(RunsOf(o.runs, x.baselineVersionId))|
                                          == |SuccessfulLatencies(RunsOf(o.runs, x.candidateVersionId))|
                <==> FailTogether(p.baseline, p.candidate))
  {
    var p := PairsOf(x, o.runs);
    GridSplits(x, o.runs, n);
    GridPairs(x, o.runs, n);
    LatencyRow(x, o, names, rng);
    EvidenceFacts(FinalResult(x, o, names, rng).evidence[LatencyIndex(names)],
                  BothOk(p.baseline, p.candidate).0, BothOk(p.baseline, p.candidate).1);
    SuccessfulCountRearranged(o.runs[..n], p.keys, p.baseline);
    SuccessfulCountRearranged(o.runs[n..], p.keys, p.candidate);
    BothOkCounts(p.baseline, p.candidate);
  }

  /** When failures come in pairs, mean latency is judged on the very latencies its evidence is built from. */
  lemma ReadLatency(x: Experiment, o: RunOutcome, names: seq<string>, n: nat, rng: Rng) returns (e: MetricEvidence)
    requires GridOutcome(x, o, names, n)
    requires FailTogether(PairsOf(x, o.runs).baseline, PairsOf(x, o.runs).candidate)
    ensures var p, result := PairsOf(x, o.runs), FinalResult(x, o, names, rng);
            var ok := BothOk(p.baseline, p.candidate);
            && ReadsFrom(result, LatencyIndex(names), LowerIsBetter, e, ok.0, ok.1)
            && result.metrics[LatencyIndex(names)].metric == "latency_ms.mean"
  {
    var p, result := PairsOf(x, o.runs), FinalResult(x, o, names, rng);
    var ok := BothOk(p.baseline, p.candidate);
    LatencyRow(x, o, names, rng);
    LatencyValues(x, o, names);
    LatencyMeansAgree(x, o, names, n);
    e := result.evidence[LatencyIndex(names)];
    EvidenceFacts(e, ok.0, ok.1);
    BothOkNonNegative(p.baseline, p.candidate);
    CandidatesNonNegative(p.baseline, p.candidate);
  }

  lemma {:induction false} CandidatesNonNegative(b: seq<Run>, c: seq<Run>)
    requires |b| == |c|
    ensures forall i :: 0 <= i < |BothOk(b, c).1| ==> BothOk(b, c).1[i] >= 0.0
  {
    if b != [] {
      CandidatesNonNegative(b[..|b| - 1], c[..|c| - 1]);
    }
  }

  /** Whatever the random stream: when failures come in pairs and at least eight pairs that succeeded are
      all slower by more than threshold x baseline mean, gated mean latency blocks the release. */
  lemma EveryPairSlowerAlwaysBlocks(
    x: Experiment, o: RunOutcome, names: seq<string>, n: nat, policy: ReleasePolicy, rng: Rng)
    requires GridOutcome(x, o, names, n) && policy.Valid() && "latency_ms.mean" in policy.thresholds
    requires EvaluateGate(FinalResult(x, o, names, rng), Some(policy)).Ok?
    requires FailTogether(PairsOf(x, o.runs).baseline, PairsOf(x, o.runs).candidate)
    requires var p := PairsOf(x, o.runs);
             var ok := BothOk(p.baseline, p.candidate);
             && |ok.0| >= MIN_PAIRS_TO_BLOCK
             && AllWorseBy(LowerIsBetter, ok.0, ok.1, Times(policy.thresholds["latency_ms.mean"], Mean(ok.0)))
    ensures Blocks(FinalResult(x, o, names, rng), policy, LatencyIndex(names))
    ensures EvaluateGate(FinalResult(x, o, names, rng), Some(policy)).value.decision == BLOCK
  {
    var p, result := PairsOf(x, o.runs), FinalResult(x, o, names, rng);
    var ok := BothOk(p.baseline, p.candidate);
    var e := ReadLatency(x, o, names, n, rng);
    EvidenceFacts(e, ok.0, ok.1);
    AllWorseBlocks(result, LatencyIndex(names), LowerIsBetter, e, ok.0, ok.1, policy,
                   Times(policy.thresholds["latency_ms.mean"], Mean(ok.0)));
    OneBlockingRowBlocks(x, o, names, rng, policy, LatencyIndex(names));
  }

  /** Whatever the random stream: when failures come in pairs and at least eight pairs that succeeded all
      change by the same amount, gated mean latency is judged by the plain point comparison. */
  lemma ConstantLatencyDifferenceVerdict(
    x: Experiment, o: RunOutcome, names: seq<string>, n: nat, policy: ReleasePolicy, rng: Rng, d: real)
    requires GridOutcome(x, o, names, n) && policy.Valid() && "latency_ms.mean" in policy.thresholds
    requires EvaluateGate(FinalResult(x, o, names, rng), Some(policy)).Ok?
    requires FailTogether(PairsOf(x, o.runs).baseline, PairsOf(x, o.runs).candidate)
    requires var p := PairsOf(x, o.runs);
             var ok := BothOk(p.baseline, p.candidate);
             |ok.0| >= MIN_PAIRS_TO_BLOCK && AllDiffer(ok.0, ok.1, d)
    ensures var v, l := EvaluateGate(FinalResult(x, o, names, rng), Some(policy)).value.verdicts, LatencyIndex(names);
            l < |v| && v[l].outcome == if v[l].thresholdBreached then Regression else Pass
  {
    var p := PairsOf(x, o.runs);
    var ok := BothOk(p.baseline, p.candidate);
    var e := ReadLatency(x, o, names, n, rng);
    ConstantVerdict(FinalResult(x, o, names, rng), LatencyIndex(names), LowerIsBetter, e, ok.0, ok.1, policy, d);
  }

  // ----- A result whose two latency means differ -----

  /** A run of the example: one case, no evaluators, failed when `failed`. */
  function ExampleRun(x: Experiment, id: string, version: string, caseId: string, latency: real, failed: bool): Run
    requires latency >= 0.0
  {
    if failed then Run(id, x.id, version, caseId, 0, "", ZERO_USAGE, Some("down"), [])
    else Run(id, x.id, version, caseId, 0, "", Usage(0, 0, 0.0, latency), None, [])
  }

  /** Two cases, one repeat: the baseline takes 1 and 3, the candidate takes 1 and fails. */
  function ExampleOutcome(x: Experiment): RunOutcome {
    RunOutcome(
      [ExampleRun(x, "r0", x.baselineVersionId, "a", 1.0, false),
       ExampleRun(x, "r1", x.baselineVersionId, "b", 3.0, false),
       ExampleRun(x, "r2", x.candidateVersionId, "a", 1.0, false),
       ExampleRun(x, "r3", x.candidateVersionId, "b", 0.0, true)],
      [Scorecard("r0", []), Scorecard("r1", []), Scorecard("r2", []), Scorecard("r3", [])])
  }

  lemma ExampleIsGrid(x: Experiment)
    requires x.Valid()
    ensures GridOutcome(x, ExampleOutcome(x), [], 2)
  {
    var runs := ExampleOutcome(x).runs;
    assert "r0"[1] == '0' && "r1"[1] == '1' && "r2"[1] == '2' && "r3"[1] == '3';
    assert "a"[0] == 'a' && "b"[0] == 'b';
    assert KeysOf(runs[..2]) == [PairKey("a", 0), PairKey("b", 0)];
  }

  lemma SuccessfulSnoc(runs: seq<Run>, r: Run)
    ensures SuccessfulLatencies(runs + [r])
         == SuccessfulLatencies(runs) + if r.error.None? then [r.usage.latencyMs] else []
  {
    assert (runs + [r])[..|runs|] == runs;
  }

  lemma BothOkSnoc(b: seq<Run>, c: seq<Run>, rb: Run, rc: Run)
    requires |b| == |c|
    ensures BothOk(b + [rb], c + [rc]).0
         == BothOk(b, c).0 + if rb.error.None? && rc.error.None? then [rb.usage.latencyMs] else []
  {
    assert (b + [rb])[..|b|] == b && (c + [rc])[..|c|] == c;
  }

  /** Of two pairs, in either order, the one whose candidate failed is dropped. */
  lemma OnePairLeft(b0: Run, b1: Run, c0: Run, c1: Run)
    requires b0.error.None? && b1.error.None? && (c0.error.None? <==> c1.error.Some?)
    ensures Mean(BothOk([b0, b1], [c0, c1]).0) == if c0.error.None? then b0.usage.latencyMs else b1.usage.latencyMs
  {
    BothOkSnoc([], [], b0, c0);
    BothOkSnoc([b0], [c0], b1, c1);
    assert [] + [b0] == [b0] && [] + [c0] == [c0] && [b0] + [b1] == [b0, b1] && [c0] + [c1] == [c0, c1];
    var kept := if c0.error.None? then b0.usage.latencyMs else b1.usage.latencyMs;
    assert BothOk([b0, b1], [c0, c1]).0 == [kept];
    SumSnoc([], kept);
    assert [] + [kept] == [kept];
  }

  /** Two runs under two keys, taken in an order of those keys, come out straight or swapped. */
  lemma TwoSelected(runs: seq<Run>, keys: seq<PairKey>, mine: seq<Run>)
    requires |runs| == |keys| == 2 && NoDup(KeysOf(runs)) && NoDup(keys) && Selected(runs, keys, mine)
    requires forall k :: k in keys ==> k in KeysOf(runs)
    ensures mine == if keys[0] == KeysOf(runs)[0] then [runs[0], runs[1]] else [runs[1], runs[0]]
  {
    ByKeyFacts(runs);
    assert keys[0] in keys && keys[1] in keys;
    assert mine == [mine[0], mine[1]];
  }

  /** Of two pairs that succeeded on the baseline and once on the candidate, the evidence keeps one. */
  lemma OnePairKept(b: seq<Run>, c: seq<Run>, p: Pairs)
    requires |b| == |c| == |p.keys| == 2 && p.Aligned()
    requires NoDup(KeysOf(b)) && KeysOf(b) == KeysOf(c) && NoDup(p.keys) && forall k :: k in p.keys ==> k in KeysOf(b)
    requires Selected(b, p.keys, p.baseline) && Selected(c, p.keys, p.candidate)
    requires b[0].error.None? && b[1].error.None? && c[0].error.None? && c[1].error.Some?
    ensures |p.baseline| == |p.candidate| && Mean(BothOk(p.baseline, p.candidate).0) == b[0].usage.latencyMs
  {
    TwoSelected(b, p.keys, p.baseline);
    TwoSelected(c, p.keys, p.candidate);
    if p.keys[0] == KeysOf(b)[0] {
      OnePairLeft(b[0], b[1], c[0], c[1]);
    } else {
      OnePairLeft(b[1], b[0], c[1], c[0]);
    }
  }

  lemma MeanOfTwo(r0: Run, r1: Run)
    requires r0.error.None? && r1.error.None?
    ensures LatencyMean([r0, r1]) == (r0.usage.latencyMs + r1.usage.latencyMs) / 2.0
  {
    SuccessfulSnoc([], r0);
    SuccessfulSnoc([r0], r1);
    assert [] + [r0] == [r0] && [r0] + [r1] == [r0, r1] && [] + [r0.usage.latencyMs] == [r0.usage.latencyMs];
    SumSnoc([], r0.usage.latencyMs);
    SumSnoc([r0.usage.latencyMs], r1.usage.latencyMs);
  }

  /** The facts about the example that the comparison of its two means needs. */
  lemma ExampleMeans(x: Experiment)
    requires x.Valid()
    ensures var runs := ExampleOutcome(x).runs;
            var p := PairsOf(x, runs);
            && Mean(BothOk(p.baseline, p.candidate).0) == 1.0
            && LatencyMean(RunsOf(runs, x.baselineVersionId)) == 2.0
  {
    var runs := ExampleOutcome(x).runs;
    ExampleIsGrid(x);
    GridSplits(x, runs, 2);
    GridPairs(x, runs, 2);
    assert runs[..2] == [runs[0], runs[1]] && runs[2..] == [runs[2], runs[3]];
    MeanOfTwo(runs[0], runs[1]);
    OnePairKept(runs[..2], runs[2..], PairsOf(x, runs));
  }

  /** What evidence and metric say of the baseline's mean latency, before it is known to be one value. */
  lemma MeansApart(x: Experiment, o: RunOutcome, names: seq<string>, rng: Rng)
    requires NoDup(names)
    ensures var result, p, l := FinalResult(x, o, names, rng), PairsOf(x, o.runs), LatencyIndex(names);
            && l < |result.metrics| && l < |result.evidence|
            && result.metrics[l].metric == "latency_ms.mean"
            && EvidenceFor(result.evidence, "latency_ms.mean") == Some(result.evidence[l])
            && result.evidence[l].baseline.mean == Mean(BothOk(p.baseline, p.candidate).0)
            && result.metrics[l].baselineValue == LatencyMean(RunsOf(o.runs, x.baselineVersionId))
  {
    var p := PairsOf(x, o.runs);
    LatencyRow(x, o, names, rng);
    LatencyValues(x, o, names);
    EvidenceFacts(FinalResult(x, o, names, rng).evidence[LatencyIndex(names)],
                  BothOk(p.baseline, p.candidate).0, BothOk(p.baseline, p.candidate).1);
  }

  /** The two latency means of one gated result can differ: a failed candidate hides its baseline's
      latency from the evidence, and only from the evidence. */
  lemma LatencyMeansDiffer(x: Experiment, rng: Rng)
    requires x.Valid()
    ensures var o, l := ExampleOutcome(x), LatencyIndex([]);
            var result := FinalResult(x, o, [], rng);
            && GridOutcome(x, o, [], 2)
            && l < |result.metrics| && l < |result.evidence|
            && result.metrics[l].metric == "latency_ms.mean"
            && EvidenceFor(result.evidence, "latency_ms.mean") == Some(result.evidence[l])
            && result.evidence[l].baseline.mean == 1.0 && result.metrics[l].baselineValue == 2.0
  {
    ExampleIsGrid(x);
    ExampleMeans(x);
    MeansApart(x, ExampleOutcome(x), [], rng);
  }
}
