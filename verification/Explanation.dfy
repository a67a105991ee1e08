/** Why diagnostics explain the gate: every block on a rate has a case-level finding. */
module Explanation {
  import opened Basics
  import opened Sequences
  import opened Ordering
  import opened Domain
  import opened Observations
  import opened Pairing
  import opened Aggregate
  import opened Grid
  import opened Bootstrap
  import opened Gate
  import opened Guard
  import opened Pipeline
  import opened Diagnostics
  import opened Conservation

  // ----- Lost passes are accounted for -----

  /** Lost passes reported for one evaluator. */
  function LostPasses(findings: seq<PairFinding>, e: string): nat {
    if findings == [] then 0
    else
      var f := findings[|findings| - 1];
      LostPasses(findings[..|findings| - 1], e) + if f.kind == PassToFail && f.evaluator == Some(e) then 1 else 0
  }

  lemma {:induction false} CountsOfConcatenation(a: seq<PairFinding>, b: seq<PairFinding>, e: string)
    ensures LostPasses(a + b, e) == LostPasses(a, e) + LostPasses(b, e)
    ensures CountKind(a + b, ProviderFailure) == CountKind(a, ProviderFailure) + CountKind(b, ProviderFailure)
    decreases |b|
  {
    if b == [] {
      assert a + b == a;
    } else {
      CountsOfConcatenation(a, b[..|b| - 1], e);
      assert (a + b)[..|a + b| - 1] == a + b[..|b| - 1];
    }
  }

  lemma {:induction false} ScoreFindingReported(
    b: Run, c: Run, bm: map<string, EvaluatorScore>, cm: map<string, EvaluatorScore>, names: seq<string>, drop: real,
    e: string)
    requires forall n :: n in names ==> n in bm && n in cm
    requires e in names
    ensures var fs, mine := ScoreFindings(b, c, bm, cm, names, drop), ScoreFinding(b, c, e, bm[e], cm[e], drop);
            && LostPasses(fs, e) >= LostPasses(mine, e)
            && |fs| >= |mine|
  {
    var n := |names| - 1;
    var last := names[n];
    var before, tail := ScoreFindings(b, c, bm, cm, names[..n], drop),
      ScoreFinding(b, c, last, bm[last], cm[last], drop);
    CountsOfConcatenation(before, tail, e);
    if e != last {
      assert e in names[..n] by {
        var j :| 0 <= j < |names| && names[j] == e;
        assert names[..n][j] == e;
      }
      ScoreFindingReported(b, c, bm, cm, names[..n], drop, e);
    }
  }

  /** Both runs succeeded and `e` scored both; then its finding is among the pair's. */
  lemma EvaluatorReported(b: Run, c: Run, results: map<string, CaseResult>, drop: real, e: string)
    requires b.error.None? && c.error.None?
    requires ScoreOf(b, results, e).Some? && ScoreOf(c, results, e).Some?
    ensures var fs := PairFindings(b, c, results, drop);
            var mine := ScoreFinding(b, c, e, ScoreOf(b, results, e).value, ScoreOf(c, results, e).value, drop);
            && LostPasses(fs, e) >= LostPasses(mine, e)
            && |fs| >= |mine|
  {
    var bm, cm := ScoresOfRun(b, results), ScoresOfRun(c, results);
    RunScores(b, results, e);
    RunScores(c, results, e);
    var names := NamesInOrder(bm.Keys * cm.Keys);
    assert FailureFindings(b, c) == [];
    assert [] + ScoreFindings(b, c, bm, cm, names, drop) == ScoreFindings(b, c, bm, cm, names, drop);
    ScoreFindingReported(b, c, bm, cm, names, drop, e);
  }

  /** A pass that turned into no verdict at all. */
  predicate VerdictVanished(b: Run, c: Run, results: map<string, CaseResult>, e: string) {
    && b.error.None? && c.error.None?
    && ScoreOf(b, results, e).Some? && ScoreOf(c, results, e).Some?
    && ScoreOf(b, results, e).value.passed == Some(true) && ScoreOf(c, results, e).value.passed == None
  }

  function Indicator(p: bool): nat { if p then 1 else 0 }

  /** Findings that can account for a lost pass of `e`. */
  function Accounted(findings: seq<PairFinding>, e: string): nat {
    LostPasses(findings, e) + CountKind(findings, ProviderFailure)
  }

  predicate PassLost(b: Run, c: Run, results: map<string, CaseResult>, e: string) {
    Obs(PassRate(e), b, results) == 1.0 && Obs(PassRate(e), c, results) == 0.0
  }

  lemma FailureAccounted(b: Run, c: Run, results: map<string, CaseResult>, drop: real, e: string)
    requires b.error.None? && c.error.Some?
    ensures Accounted(PairFindings(b, c, results, drop), e) >= 1
  {
    var fs := PairFindings(b, c, results, drop);
    PairFindingsShape(b, c, results, drop);
    assert fs[..|fs| - 1] == [];
  }

  /** The finding of an evaluator that passed the baseline and failed the candidate. */
  lemma PassToFailFinding(b: Run, c: Run, e: string, bs: EvaluatorScore, cs: EvaluatorScore, drop: real)
    requires bs.passed == Some(true) && cs.passed == Some(false)
    ensures LostPasses(ScoreFinding(b, c, e, bs, cs, drop), e) == 1
  {
    var mine := ScoreFinding(b, c, e, bs, cs, drop);
    assert mine[..0] == [];
  }

  lemma VerdictAccounted(b: Run, c: Run, results: map<string, CaseResult>, drop: real, e: string)
    requires b.error.None? && c.error.None?
    requires ScoreOf(b, results, e).Some? && ScoreOf(c, results, e).Some?
    requires ScoreOf(b, results, e).value.passed == Some(true) && ScoreOf(c, results, e).value.passed == Some(false)
    ensures Accounted(PairFindings(b, c, results, drop), e) >= 1
  {
    EvaluatorReported(b, c, results, drop, e);
    PassToFailFinding(b, c, e, ScoreOf(b, results, e).value, ScoreOf(c, results, e).value, drop);
  }

  /** How a pass is lost: the candidate failed, was judged failed, or was not judged. */
  lemma WhyPassLost(b: Run, c: Run, results: map<string, CaseResult>, e: string)
    requires Readable(PassRate(e), c, results) && PassLost(b, c, results, e)
    ensures b.error.None? && ScoreOf(b, results, e).Some? && ScoreOf(b, results, e).value.passed == Some(true)
    ensures c.error.None? ==> ScoreOf(c, results, e).Some? && ScoreOf(c, results, e).value.passed != Some(true)
    ensures c.error.None? && ScoreOf(c, results, e).value.passed != Some(false) ==> VerdictVanished(b, c, results, e)
  {
    if c.error.None? {
      var verdict := ScoreOf(c, results, e).value.passed;
      assert verdict == None || verdict == Some(true) || verdict == Some(false) by {
        if verdict.Some? {
          assert verdict.value || !verdict.value;
        }
      }
    }
  }

  lemma LostPassAccounted(b: Run, c: Run, results: map<string, CaseResult>, drop: real, e: string)
    requires Readable(PassRate(e), c, results) && PassLost(b, c, results, e)
    ensures Accounted(PairFindings(b, c, results, drop), e) + Indicator(VerdictVanished(b, c, results, e)) >= 1
  {
    WhyPassLost(b, c, results, e);
    if c.error.Some? {
      FailureAccounted(b, c, results, drop, e);
    } else if ScoreOf(c, results, e).value.passed == Some(false) {
      VerdictAccounted(b, c, results, drop, e);
    }
  }

  lemma PairAccounting(b: Run, c: Run, results: map<string, CaseResult>, drop: real, e: string)
    requires Readable(PassRate(e), c, results)
    ensures Obs(PassRate(e), b, results) - Obs(PassRate(e), c, results)
         <= (Accounted(PairFindings(b, c, results, drop), e) + Indicator(VerdictVanished(b, c, results, e))) as real
  {
    if PassLost(b, c, results, e) {
      LostPassAccounted(b, c, results, drop, e);
    }
  }

  function Vanished(b: seq<Run>, c: seq<Run>, results: map<string, CaseResult>, e: string): nat
    requires |b| == |c|
  {
    if b == [] then 0
    else
      var n := |b| - 1;
      Vanished(b[..n], c[..n], results, e) + Indicator(VerdictVanished(b[n], c[n], results, e))
  }

  /** Passes of `e` among these runs. */
  function Passes(runs: seq<Run>, results: map<string, CaseResult>, e: string): real {
    Sum(ObsSeq(PassRate(e), runs, results))
  }

  lemma PassesSnoc(runs: seq<Run>, results: map<string, CaseResult>, e: string)
    requires runs != []
    ensures var n := |runs| - 1;
            Passes(runs, results, e) == Passes(runs[..n], results, e) + Obs(PassRate(e), runs[n], results)
  {
    var n := |runs| - 1;
    ObsSnoc(PassRate(e), runs, n, results);
    assert runs[..n + 1] == runs;
    SumSnoc(ObsSeq(PassRate(e), runs[..n], results), Obs(PassRate(e), runs[n], results));
  }

  lemma AccountedSnoc(b: seq<Run>, c: seq<Run>, results: map<string, CaseResult>, drop: real, e: string)
    requires |b| == |c| && b != []
    ensures var n := |b| - 1;
            Accounted(FindingsOfPairs(b, c, results, drop), e)
            == Accounted(FindingsOfPairs(b[..n], c[..n], results, drop), e)
               + Accounted(PairFindings(b[n], c[n], results, drop), e)
  {
    var n := |b| - 1;
    CountsOfConcatenation(FindingsOfPairs(b[..n], c[..n], results, drop), PairFindings(b[n], c[n], results, drop), e);
  }

  /** The drop in an evaluator's number of passes is at most its reported lost passes, plus the
      provider-failure findings, plus the passes whose verdict vanished. */
  lemma {:induction false} PassDropAccounted(
    b: seq<Run>, c: seq<Run>, results: map<string, CaseResult>, drop: real, e: string)
    requires |b| == |c| && AllReadable(PassRate(e), c, results)
    ensures Passes(b, results, e) - Passes(c, results, e)
         <= (Accounted(FindingsOfPairs(b, c, results, drop), e) + Vanished(b, c, results, e)) as real
  {
    if b != [] {
      var n := |b| - 1;
      assert AllReadable(PassRate(e), c[..n], results);
      PassDropAccounted(b[..n], c[..n], results, drop, e);
      PairAccounting(b[n], c[n], results, drop, e);
      AccountedSnoc(b, c, results, drop, e);
      PassesSnoc(b, results, e);
      PassesSnoc(c, results, e);
    }
  }

  // ----- Every block on a rate is explained -----

  lemma OneMoreGrows(b: seq<Run>, c: seq<Run>, results: map<string, CaseResult>, drop: real, m: nat)
    requires |b| == |c| && m < |b|
    ensures |FindingsOfPairs(b[..m], c[..m], results, drop)| <= |FindingsOfPairs(b[..m + 1], c[..m + 1], results, drop)|
    ensures |PairFindings(b[m], c[m], results, drop)| <= |FindingsOfPairs(b[..m + 1], c[..m + 1], results, drop)|
  {
    OneMorePair(b, c, m, results, drop);
  }

  lemma {:induction false} FindingsGrow(b: seq<Run>, c: seq<Run>, results: map<string, CaseResult>, drop: real, m: nat)
    requires |b| == |c| && m <= |b|
    ensures |FindingsOfPairs(b[..m], c[..m], results, drop)| <= |FindingsOfPairs(b[..|b|], c[..|c|], results, drop)|
    decreases |b| - m
  {
    if m < |b| {
      FindingsGrow(b, c, results, drop, m + 1);
      OneMoreGrows(b, c, results, drop, m);
    }
  }

  lemma WholePrefix(runs: seq<Run>)
    ensures runs[..|runs|] == runs
  {
  }

  lemma PairFindingsIncluded(b: seq<Run>, c: seq<Run>, results: map<string, CaseResult>, drop: real, i: nat)
    requires |b| == |c| && i < |b|
    ensures |FindingsOfPairs(b, c, results, drop)| >= |PairFindings(b[i], c[i], results, drop)|
  {
    OneMoreGrows(b, c, results, drop, i);
    FindingsGrow(b, c, results, drop, i + 1);
    WholePrefix(b);
    WholePrefix(c);
  }

  lemma {:induction false} SumDropsSomewhere(b: seq<real>, c: seq<real>, drop: real)
    requires |b| == |c| && b != []
    requires Mean(c) < Mean(b) - drop
    ensures exists i :: 0 <= i < |b| && c[i] < b[i] - drop
  {
    if forall i :: 0 <= i < |b| ==> c[i] >= b[i] - drop {
      var lo, hi := SomeBounds(b, c);
      MeanWithin(b, c, -drop, if hi < -drop then -drop else hi);
    }
  }

  lemma SomeFindingSomePair(findings: seq<PairFinding>)
    requires findings != []
    ensures |PairKeys(findings)| > 0
  {
    assert findings[0].Key() in PairKeys(findings);
  }

  lemma BreachMeansLower(
    x: Experiment, o: RunOutcome, names: seq<string>, n: nat, i: nat, policy: ReleasePolicy, rng: Rng)
    requires GridOutcome(x, o, names, n) && policy.Valid() && i < |Rates(names)|
    requires Blocks(FinalResult(x, o, names, rng), policy, i)
    ensures var rate, p, results := Rates(names)[i], PairsOf(x, o.runs), ResultsByRun(o.caseResults);
            && |p.keys| == n
            && Mean(ObsSeq(rate, p.candidate, results)) < Mean(ObsSeq(rate, p.baseline, results))
  {
    var rate := Rates(names)[i];
    RateRow(x, o, names, n, i, rng);
    PairedMeansMatchAggregate(x, o, names, n, rate);
    var mc := RateComparison(x, o, rate);
    BreachedIsLower(mc.baselineValue, mc.candidateValue, policy.thresholds[rate.Name()]);
  }

  lemma BreachedIsLower(b: real, c: real, t: real)
    requires t >= 0.0 && Breached(HigherIsBetter, b, c, t)
    ensures c < b
  {
    ProductNonNegative(t, b);
  }

  lemma {:induction false} SuccessRateComesFirst(names: seq<string>)
    ensures Rates(names)[0] == SuccessRate
  {
    if names != [] {
      SuccessRateComesFirst(names[..|names| - 1]);
    }
  }

  /** A block on the success rate, the first metric, has a regressing pair: a provider failure the
      baseline did not have. */
  lemma SuccessBlockExplained(
    x: Experiment, o: RunOutcome, names: seq<string>, n: nat, policy: ReleasePolicy, rng: Rng, drop: real)
    requires GridOutcome(x, o, names, n) && policy.Valid()
    requires Blocks(FinalResult(x, o, names, rng), policy, 0)
    ensures Findings(x, o, drop) != [] && |PairKeys(Findings(x, o, drop))| > 0
  {
    var p, results := PairsOf(x, o.runs), ResultsByRun(o.caseResults);
    var b, c := ObsSeq(SuccessRate, p.baseline, results), ObsSeq(SuccessRate, p.candidate, results);
    SuccessRateComesFirst(names);
    BreachMeansLower(x, o, names, n, 0, policy, rng);
    SumDropsSomewhere(b, c, 0.0);
    var i :| 0 <= i < |b| && c[i] < b[i] - 0.0;
    PairFindingsShape(p.baseline[i], p.candidate[i], results, drop);
    PairFindingsIncluded(p.baseline, p.candidate, results, drop, i);
    SomeFindingSomePair(Findings(x, o, drop));
  }

  /** A pair whose score fell by more than the reporting threshold has a finding. */
  lemma ScoreDropReported(b: Run, c: Run, results: map<string, CaseResult>, drop: real, e: string)
    requires Readable(MeanScore(e), b, results) && Readable(MeanScore(e), c, results) && drop >= 0.0
    requires Obs(MeanScore(e), c, results) < Obs(MeanScore(e), b, results) - drop
    ensures PairFindings(b, c, results, drop) != []
  {
    if c.error.Some? {
      PairFindingsShape(b, c, results, drop);
    } else {
      EvaluatorReported(b, c, results, drop, e);
    }
  }

  lemma SomePairDropped(
    rate: Rate, b: seq<Run>, c: seq<Run>, results: map<string, CaseResult>, drop: real) returns (k: nat)
    requires |b| == |c| && b != []
    requires Mean(ObsSeq(rate, c, results)) < Mean(ObsSeq(rate, b, results)) - drop
    ensures k < |b| && Obs(rate, c[k], results) < Obs(rate, b[k], results) - drop
  {
    var bs, cs := ObsSeq(rate, b, results), ObsSeq(rate, c, results);
    SumDropsSomewhere(bs, cs, drop);
    k :| 0 <= k < |bs| && cs[k] < bs[k] - drop;
  }

  /** A mean score that fell by more than the reporting threshold has a finding. */
  lemma MeanScoreDropExplained(x: Experiment, o: RunOutcome, names: seq<string>, n: nat, i: nat, e: string, drop: real)
    requires GridOutcome(x, o, names, n) && drop >= 0.0
    requires i < |Rates(names)| && Rates(names)[i] == MeanScore(e)
    requires RateComparison(x, o, MeanScore(e)).candidateValue < RateComparison(x, o, MeanScore(e)).baselineValue - drop
    ensures Findings(x, o, drop) != [] && |PairKeys(Findings(x, o, drop))| > 0
  {
    var p, results := PairsOf(x, o.runs), ResultsByRun(o.caseResults);
    PairedMeansMatchAggregate(x, o, names, n, MeanScore(e));
    GridPairs(x, o.runs, n);
    GridReadable(x, o, names, n);
    assert PairsReadable(Rates(names)[i], p, results);
    var k := SomePairDropped(MeanScore(e), p.baseline, p.candidate, results, drop);
    ScoreDropReported(p.baseline[k], p.candidate[k], results, drop, e);
    PairFindingsIncluded(p.baseline, p.candidate, results, drop, k);
    SomeFindingSomePair(Findings(x, o, drop));
  }

  // ----- Exactly when a lost pass goes unreported -----

  /** The finding speaks of evaluator `e`, or of the provider failure that left it nothing to judge. */
  predicate Reports(f: PairFinding, e: string) { f.kind == ProviderFailure || f.evaluator == Some(e) }

  ghost predicate Reported(findings: seq<PairFinding>, e: string) {
    exists f :: f in findings && Reports(f, e)
  }

  /** The pass is lost, the score did not fall by more than `drop`, and no verdict says why. */
  predicate LostSilently(b: Run, c: Run, results: map<string, CaseResult>, drop: real, e: string) {
    && VerdictVanished(b, c, results, e)
    && ScoreOf(c, results, e).value.score >= ScoreOf(b, results, e).value.score - drop
  }

  lemma ReportedConcat(a: seq<PairFinding>, b: seq<PairFinding>, e: string)
    ensures Reported(a + b, e) <==> Reported(a, e) || Reported(b, e)
  {
    forall f
      ensures f in a + b <==> f in a || f in b
    {
    }
  }

  lemma OwnFindingReports(b: Run, c: Run, name: string, bs: EvaluatorScore, cs: EvaluatorScore, drop: real, e: string)
    ensures var mine := ScoreFinding(b, c, name, bs, cs, drop); Reported(mine, e) <==> name == e && mine != []
  {
    var mine := ScoreFinding(b, c, name, bs, cs, drop);
    if mine != [] {
      assert mine[0] in mine;
    }
  }

  /** Among the findings of several evaluators, `e` is reported exactly when it has a finding of its own. */
  lemma {:induction false} ScoreFindingsReport(
    b: Run, c: Run, bm: map<string, EvaluatorScore>, cm: map<string, EvaluatorScore>, names: seq<string>, drop: real,
    e: string)
    requires forall n :: n in names ==> n in bm && n in cm
    ensures Reported(ScoreFindings(b, c, bm, cm, names, drop), e)
       <==> e in names && ScoreFinding(b, c, e, bm[e], cm[e], drop) != []
  {
    if names != [] {
      var n := |names| - 1;
      var last := names[n];
      var before, tail := ScoreFindings(b, c, bm, cm, names[..n], drop),
        ScoreFinding(b, c, last, bm[last], cm[last], drop);
      ScoreFindingsReport(b, c, bm, cm, names[..n], drop, e);
      OwnFindingReports(b, c, last, bm[last], cm[last], drop, e);
      ReportedConcat(before, tail, e);
      NameInLonger(names, e);
    }
  }

  lemma NameInLonger(names: seq<string>, e: string)
    requires names != []
    ensures e in names <==> e in names[..|names| - 1] || e == names[|names| - 1]
  {
    assert names == names[..|names| - 1] + [names[|names| - 1]];
  }

  lemma PairReports(b: Run, c: Run, results: map<string, CaseResult>, drop: real, e: string)
    requires b.error.None? && c.error.None?
    requires ScoreOf(b, results, e).Some? && ScoreOf(c, results, e).Some?
    ensures Reported(PairFindings(b, c, results, drop), e)
       <==> ScoreFinding(b, c, e, ScoreOf(b, results, e).value, ScoreOf(c, results, e).value, drop) != []
  {
    var bm, cm := ScoresOfRun(b, results), ScoresOfRun(c, results);
    RunScores(b, results, e);
    RunScores(c, results, e);
    var names := NamesInOrder(bm.Keys * cm.Keys);
    ScoreFindingsReport(b, c, bm, cm, names, drop, e);
    ReportedConcat(FailureFindings(b, c), ScoreFindings(b, c, bm, cm, names, drop), e);
  }

  /** A lost pass is reported, by a finding of its evaluator or of the provider failure, exactly when
      the candidate failed, was judged failed, or lost more than `drop`; and it is not reported
      exactly when it was lost silently. */
  lemma LostPassReportedExactly(b: Run, c: Run, results: map<string, CaseResult>, drop: real, e: string)
    requires Readable(PassRate(e), c, results) && PassLost(b, c, results, e)
    ensures Reported(PairFindings(b, c, results, drop), e) <==>
              || c.error.Some?
              || ScoreOf(c, results, e).value.passed == Some(false)
              || ScoreOf(c, results, e).value.score < ScoreOf(b, results, e).value.score - drop
    ensures Reported(PairFindings(b, c, results, drop), e) <==> !LostSilently(b, c, results, drop, e)
  {
    WhyPassLost(b, c, results, e);
    if c.error.Some? {
      PairFindingsShape(b, c, results, drop);
      var fs := PairFindings(b, c, results, drop);
      assert fs[0] in fs && Reports(fs[0], e);
    } else {
      PairReports(b, c, results, drop, e);
    }
  }

  // ----- The same of a whole outcome -----

  /** Some finding at this (case, repeat) reports `e`. */
  ghost predicate ReportedAt(findings: seq<PairFinding>, key: PairKey, e: string) {
    exists f :: f in findings && f.Key() == key && Reports(f, e)
  }

  /** `f` is a finding of one of the first `m` pairs. */
  ghost predicate OfSomePair(
    b: seq<Run>, c: seq<Run>, results: map<string, CaseResult>, drop: real, m: nat, f: PairFinding)
    requires |b| == |c| && m <= |b|
  {
    exists i :: 0 <= i < m && OfPair(b[i], c[i], results, drop, f)
  }

  ghost predicate OfPair(b: Run, c: Run, results: map<string, CaseResult>, drop: real, f: PairFinding) {
    f in PairFindings(b, c, results, drop)
  }

  /** The findings of the pairs before `m` are those of each of them. */
  lemma {:induction false} FindingsByPair(
    b: seq<Run>, c: seq<Run>, results: map<string, CaseResult>, drop: real, m: nat, f: PairFinding)
    requires |b| == |c| && m <= |b|
    ensures f in FindingsOfPairs(b[..m], c[..m], results, drop) <==> OfSomePair(b, c, results, drop, m, f)
  {
    if m == 0 {
      assert b[..0] == [] && c[..0] == [];
    } else {
      FindingsByPair(b, c, results, drop, m - 1, f);
      OneMoreMember(b, c, results, drop, m - 1, f);
      NextPair(b, c, results, drop, m - 1, f);
    }
  }

  lemma OneMoreMember(b: seq<Run>, c: seq<Run>, results: map<string, CaseResult>, drop: real, m: nat, f: PairFinding)
    requires |b| == |c| && m < |b|
    ensures f in FindingsOfPairs(b[..m + 1], c[..m + 1], results, drop)
       <==> f in FindingsOfPairs(b[..m], c[..m], results, drop) || OfPair(b[m], c[m], results, drop, f)
  {
    OneMorePair(b, c, m, results, drop);
    InConcat(FindingsOfPairs(b[..m], c[..m], results, drop), PairFindings(b[m], c[m], results, drop), f);
  }

  lemma NextPair(b: seq<Run>, c: seq<Run>, results: map<string, CaseResult>, drop: real, m: nat, f: PairFinding)
    requires |b| == |c| && m < |b|
    ensures OfSomePair(b, c, results, drop, m + 1, f)
       <==> OfSomePair(b, c, results, drop, m, f) || OfPair(b[m], c[m], results, drop, f)
  {
  }

  lemma InConcat<T>(a: seq<T>, b: seq<T>, f: T)
    ensures f in a + b <==> f in a || f in b
  {
  }

  lemma PairsCarryKeys(x: Experiment, runs: seq<Run>)
    ensures var p := PairsOf(x, runs);
            NoDup(p.keys) && forall i :: 0 <= i < |p.keys| ==> p.baseline[i].Key() == p.keys[i]
  {
    var p, all := PairsOf(x, runs), RunsOf(runs, x.baselineVersionId);
    ByKeyMembers(all);
    forall i | 0 <= i < |p.keys|
      ensures p.baseline[i].Key() == p.keys[i]
    {
      assert p.keys[i] in p.keys;
    }
  }

  /** In the findings of an outcome, what is reported at a key is what its pair reports. */
  lemma ReportedAtPair(x: Experiment, o: RunOutcome, drop: real, k: nat, e: string)
    requires k < |PairsOf(x, o.runs).keys|
    ensures var p := PairsOf(x, o.runs);
            ReportedAt(Findings(x, o, drop), p.keys[k], e)
            <==> Reported(PairFindings(p.baseline[k], p.candidate[k], ResultsByRun(o.caseResults), drop), e)
  {
    var p, results := PairsOf(x, o.runs), ResultsByRun(o.caseResults);
    PairsCarryKeys(x, o.runs);
    WholePrefix(p.baseline);
    WholePrefix(p.candidate);
    forall f
      ensures f in Findings(x, o, drop) && f.Key() == p.keys[k] <==>
          f in PairFindings(p.baseline[k], p.candidate[k], results, drop)
    {
      FindingsByPair(p.baseline, p.candidate, results, drop, |p.keys|, f);
      PairFindingsShape(p.baseline[k], p.candidate[k], results, drop);
      assert OfPair(p.baseline[k], p.candidate[k], results, drop, f) <==>
          f in PairFindings(p.baseline[k], p.candidate[k], results, drop);
      if f in Findings(x, o, drop) && f.Key() == p.keys[k] {
        var i :| 0 <= i < |p.keys| && OfPair(p.baseline[i], p.candidate[i], results, drop, f);
        PairFindingsShape(p.baseline[i], p.candidate[i], results, drop);
        assert i == k;
      }
    }
  }

  /** The findings of an outcome are exactly those its pairs call for. */
  lemma OutcomeFindingsExactly(x: Experiment, o: RunOutcome, drop: real, f: PairFinding)
    ensures var p, results := PairsOf(x, o.runs), ResultsByRun(o.caseResults);
            f in Findings(x, o, drop) <==>
            exists k :: 0 <= k < |p.keys| && IsFinding(f, p.baseline[k], p.candidate[k], results, drop)
  {
    var p, results := PairsOf(x, o.runs), ResultsByRun(o.caseResults);
    WholePrefix(p.baseline);
    WholePrefix(p.candidate);
    FindingsByPair(p.baseline, p.candidate, results, drop, |p.keys|, f);
    forall k | 0 <= k < |p.keys|
      ensures OfPair(p.baseline[k], p.candidate[k], results, drop, f)
         <==> IsFinding(f, p.baseline[k], p.candidate[k], results, drop)
    {
      PairFindingsExactly(p.baseline[k], p.candidate[k], results, drop);
    }
  }

  /** In an outcome that aggregation accepts, a lost pass is reported at its key unless it was lost silently. */
  lemma LostPassesReported(
    x: Experiment, o: RunOutcome, names: seq<string>, n: nat, i: nat, e: string, drop: real, k: nat)
    requires GridOutcome(x, o, names, n)
    requires i < |Rates(names)| && Rates(names)[i] == PassRate(e)
    requires var p := PairsOf(x, o.runs);
             k < |p.keys| && PassLost(p.baseline[k], p.candidate[k], ResultsByRun(o.caseResults), e)
    ensures var p := PairsOf(x, o.runs);
            ReportedAt(Findings(x, o, drop), p.keys[k], e)
            <==> !LostSilently(p.baseline[k], p.candidate[k], ResultsByRun(o.caseResults), drop, e)
  {
    var p, results := PairsOf(x, o.runs), ResultsByRun(o.caseResults);
    GridReadable(x, o, names, n);
    assert PairsReadable(Rates(names)[i], p, results);
    assert Readable(PassRate(e), p.candidate[k], results);
    ReportedAtPair(x, o, drop, k, e);
    LostPassReportedExactly(p.baseline[k], p.candidate[k], results, drop, e);
  }

  /** A block on a pass rate has a pair that lost its pass, and the diagnosis reports every such pair
      except those lost silently. */
  lemma PassBlockExplained(
    x: Experiment, o: RunOutcome, names: seq<string>, n: nat, i: nat, e: string, policy: ReleasePolicy, rng: Rng,
    drop: real)
    requires GridOutcome(x, o, names, n) && policy.Valid()
    requires i < |Rates(names)| && Rates(names)[i] == PassRate(e)
    requires Blocks(FinalResult(x, o, names, rng), policy, i)
    ensures var p, results := PairsOf(x, o.runs), ResultsByRun(o.caseResults);
            && (exists k :: 0 <= k < |p.keys| && PassLost(p.baseline[k], p.candidate[k], results, e))
            && forall k :: 0 <= k < |p.keys| && PassLost(p.baseline[k], p.candidate[k], results, e) ==>
                 (ReportedAt(Findings(x, o, drop), p.keys[k], e) <==>
                    !LostSilently(p.baseline[k], p.candidate[k], results, drop, e))
  {
    var p, results := PairsOf(x, o.runs), ResultsByRun(o.caseResults);
    BreachMeansLower(x, o, names, n, i, policy, rng);
    var k := SomePairDropped(PassRate(e), p.baseline, p.candidate, results, 0.0);
    assert PassLost(p.baseline[k], p.candidate[k], results, e);
    forall j | 0 <= j < |p.keys| && PassLost(p.baseline[j], p.candidate[j], results, e)
      ensures ReportedAt(Findings(x, o, drop), p.keys[j], e)
         <==> !LostSilently(p.baseline[j], p.candidate[j], results, drop, e)
    {
      LostPassesReported(x, o, names, n, i, e, drop, j);
    }
  }

  /** So with boolean verdicts, as all evaluators of the repository give, a block on a pass rate has a
      regressing pair, reported by a finding of that evaluator or of a provider failure. */
  lemma BooleanPassBlockReported(
    x: Experiment, o: RunOutcome, names: seq<string>, n: nat, i: nat, e: string, policy: ReleasePolicy, rng: Rng,
    drop: real)
    requires GridOutcome(x, o, names, n) && policy.Valid()
    requires i < |Rates(names)| && Rates(names)[i] == PassRate(e)
    requires Blocks(FinalResult(x, o, names, rng), policy, i)
    requires forall r, s :: r in o.caseResults && s in r.scores ==> s.passed.Some?
    ensures |PairKeys(Findings(x, o, drop))| > 0
    ensures exists key :: ReportedAt(Findings(x, o, drop), key, e)
  {
    var p, results := PairsOf(x, o.runs), ResultsByRun(o.caseResults);
    PassBlockExplained(x, o, names, n, i, e, policy, rng, drop);
    var k :| 0 <= k < |p.keys| && PassLost(p.baseline[k], p.candidate[k], results, e);
    BooleanIsNotSilent(o, p.baseline[k], p.candidate[k], drop, e);
    ReportedSomewhere(Findings(x, o, drop), p.keys[k], e);
  }

  lemma BooleanIsNotSilent(o: RunOutcome, b: Run, c: Run, drop: real, e: string)
    requires forall r, s :: r in o.caseResults && s in r.scores ==> s.passed.Some?
    ensures !LostSilently(b, c, ResultsByRun(o.caseResults), drop, e)
  {
    VerdictsAreBoolean(o, c, e);
  }

  lemma ReportedSomewhere(findings: seq<PairFinding>, key: PairKey, e: string)
    requires ReportedAt(findings, key, e)
    ensures |PairKeys(findings)| > 0
  {
    SomeFindingSomePair(findings);
  }

  lemma VerdictsAreBoolean(o: RunOutcome, run: Run, e: string)
    requires forall r, s :: r in o.caseResults && s in r.scores ==> s.passed.Some?
    ensures var s := ScoreOf(run, ResultsByRun(o.caseResults), e); s.Some? ==> s.value.passed.Some?
  {
    var results := ResultsByRun(o.caseResults);
    ResultsByRunMembers(o.caseResults);
    if run.id in results {
      ScoreNamedFacts(results[run.id].scores, e);
    }
  }

  lemma SingleScore(s: EvaluatorScore)
    ensures ScoreMap([s]) == map[s.evaluator := s]
  {
    assert [s][..0] == [];
  }

  /** The concrete case: a pass followed by an undecided verdict of the same score is a lost pass
      that no finding reports. */
  lemma UndecidedVerdictIsSilent(b: Run, c: Run, drop: real)
    requires b.error.None? && c.error.None? && b.id != c.id && drop >= 0.0
    ensures var results := map[b.id := Scorecard(b.id, [Score("custom", 1.0, Some(true))]),
                               c.id := Scorecard(c.id, [Score("custom", 1.0, None)])];
            && Obs(PassRate("custom"), b, results) == 1.0
            && Obs(PassRate("custom"), c, results) == 0.0
            && PairFindings(b, c, results, drop) == []
  {
    var bs, cs := Score("custom", 1.0, Some(true)), Score("custom", 1.0, None);
    var results := map[b.id := Scorecard(b.id, [bs]), c.id := Scorecard(c.id, [cs])];
    var bm, cm := ScoresOfRun(b, results), ScoresOfRun(c, results);
    SingleScore(bs);
    SingleScore(cs);
    assert bm == map["custom" := bs] && cm == map["custom" := cs];
    assert bm.Keys * cm.Keys == {"custom"};
    var names := NamesInOrder({"custom"});
    assert names[0] in {"custom"};
    assert names == ["custom"];
    assert names[..0] == [];
    assert ScoreFindings(b, c, bm, cm, names, drop)
        == ScoreFindings(b, c, bm, cm, [], drop) + ScoreFinding(b, c, "custom", bs, cs, drop);
  }
}
