/** The release gate: a point threshold per metric, guarded by the bootstrap interval. */
module Gate {
  import opened Basics
  import opened Domain
  import opened Sequences

  datatype Direction = HigherIsBetter | LowerIsBetter

  datatype Outcome = Pass | Regression | Inconclusive | LowEvidence

  datatype Decision = PASS | BLOCK

  datatype MetricVerdict = MetricVerdict(
    metric: string,
    direction: Direction,
    baseline: real,
    candidate: real,
    adverseChange: Option<real>,
    threshold: Option<real>,
    outcome: Outcome,
    thresholdBreached: bool,
    evidence: Option<MetricEvidence>)

  /** `blocking` and `advisories` name the metrics the report's reasons and advisories speak of. */
  datatype GateReport = GateReport(
    decision: Decision,
    verdicts: seq<MetricVerdict>,
    blocking: seq<string>,
    advisories: seq<string>,
    gated: bool)

  const MIN_PAIRS_TO_BLOCK := 8

  const LOWER_IS_BETTER: set<string> := {"latency_ms.mean", "latency_ms.p95", "cost_usd.total"}

  predicate EndsWith(s: string, suffix: string) {
    |s| >= |suffix| && s[|s| - |suffix|..] == suffix
  }

  function DirectionOf(metric: string): Result<Direction> {
    if metric in LOWER_IS_BETTER then Ok(LowerIsBetter)
    else if metric == "success_rate" || EndsWith(metric, ".pass_rate") || EndsWith(metric, ".mean_score")
    then Ok(HigherIsBetter)
    else Err(ConfigError)
  }

  /** Does the whole interval lie on the adverse side of the tolerated boundary? */
  predicate CiConfirmsRegression(e: MetricEvidence, direction: Direction, threshold: Option<real>) {
    if threshold.None? || e.ciLow.None? || e.ciHigh.None? then false
    else
      var boundary := Times(threshold.value, e.baseline.mean);
      match direction
      case HigherIsBetter => e.ciHigh.value < -boundary
      case LowerIsBetter => e.ciLow.value > boundary
  }

  function OutcomeOf(
    breached: bool, threshold: Option<real>, direction: Direction, evidence: Option<MetricEvidence>
  ): Outcome
  {
    if !breached then Pass
    else match evidence
      case None => Regression
      case Some(e) =>
        if e.nPairs < MIN_PAIRS_TO_BLOCK || e.ciLow.None? || e.ciHigh.None? then LowEvidence
        else if CiConfirmsRegression(e, direction, threshold) then Regression
        else Inconclusive
  }

  /** The adverse change as a fraction (None when unbounded), and whether it exceeds the threshold. */
  function AdverseChange(direction: Direction, baseline: real, candidate: real, threshold: Option<real>)
    : (Option<real>, bool)
  {
    if baseline == 0.0 && candidate == 0.0 then (Some(0.0), false)
    else if baseline == 0.0 then
      if direction.HigherIsBetter? then (Some(0.0), false) else (None, threshold.Some?)
    else
      var adverse := match direction
        case HigherIsBetter => (baseline - candidate) / baseline
        case LowerIsBetter => (candidate - baseline) / baseline;
      (Some(adverse), threshold.Some? && adverse > threshold.value)
  }

  function VerdictOf(mc: MetricComparison, threshold: Option<real>, evidence: Option<MetricEvidence>)
    : Result<MetricVerdict>
  {
    var direction :- DirectionOf(mc.metric);
    var (adverse, breached) := AdverseChange(direction, mc.baselineValue, mc.candidateValue, threshold);
    Ok(MetricVerdict(
      mc.metric, direction, mc.baselineValue, mc.candidateValue, adverse, threshold,
      OutcomeOf(breached, threshold, direction, evidence), breached, evidence))
  }

  /** Lookup in the by-metric dictionary: the last item of a name wins. */
  function EvidenceFor(evidence: seq<MetricEvidence>, metric: string): Option<MetricEvidence> {
    if evidence == [] then None
    else
      var e := evidence[|evidence| - 1];
      if e.metric == metric then Some(e) else EvidenceFor(evidence[..|evidence| - 1], metric)
  }

  function ThresholdFor(policy: Option<ReleasePolicy>, metric: string): Option<real> {
    if policy.Some? && metric in policy.value.thresholds then Some(policy.value.thresholds[metric]) else None
  }

  function Verdicts(metrics: seq<MetricComparison>, evidence: seq<MetricEvidence>, policy: Option<ReleasePolicy>)
    : Result<seq<MetricVerdict>>
  {
    if metrics == [] then Ok([])
    else
      var mc := metrics[0];
      var v :- VerdictOf(mc, ThresholdFor(policy, mc.metric), EvidenceFor(evidence, mc.metric));
      var rest :- Verdicts(metrics[1..], evidence, policy);
      Ok([v] + rest)
  }

  /** The metrics whose verdict has one of the given outcomes, in order. */
  function WithOutcome(verdicts: seq<MetricVerdict>, outcomes: set<Outcome>): seq<string> {
    if verdicts == [] then []
    else
      var before, v := WithOutcome(verdicts[..|verdicts| - 1], outcomes), verdicts[|verdicts| - 1];
      if v.outcome in outcomes then before + [v.metric] else before
  }

  ghost predicate Produced(result: EvaluationResult, metric: string) {
    exists i :: 0 <= i < |result.metrics| && result.metrics[i].metric == metric
  }

  /** The names of the metrics an evaluation produced. */
  function ProducedNames(metrics: seq<MetricComparison>): (names: set<string>)
    ensures forall m :: m in names <==> exists i :: 0 <= i < |metrics| && metrics[i].metric == m
  {
    set i | 0 <= i < |metrics| :: metrics[i].metric
  }

  /** `evaluate_gate`. */
  function EvaluateGate(result: EvaluationResult, policy: Option<ReleasePolicy>): Result<GateReport> {
    match policy
    case None =>
      var verdicts :- Verdicts(result.metrics, result.evidence, None);
      Ok(GateReport(PASS, verdicts, [], [], false))
    case Some(p) =>
      if !(p.thresholds.Keys <= ProducedNames(result.metrics)) then Err(ConfigError)
      else
        var verdicts :- Verdicts(result.metrics, result.evidence, policy);
        var blocking := WithOutcome(verdicts, {Regression});
        Ok(GateReport(
          if blocking != [] then BLOCK else PASS, verdicts,
          blocking, WithOutcome(verdicts, {Inconclusive, LowEvidence}), true))
  }

  // ----- What a report says, metric by metric -----

  lemma {:induction false} VerdictsPointwise(
    metrics: seq<MetricComparison>, evidence: seq<MetricEvidence>, policy: Option<ReleasePolicy>)
    ensures var r := Verdicts(metrics, evidence, policy);
            && (r.Ok? <==> forall i :: 0 <= i < |metrics| ==> DirectionOf(metrics[i].metric).Ok?)
            && (r.Err? ==> r.error == ConfigError)
            && (r.Ok? ==>
                  && |r.value| == |metrics|
                  && forall i :: 0 <= i < |metrics| ==>
                    VerdictOf(metrics[i], ThresholdFor(policy, metrics[i].metric),
                              EvidenceFor(evidence, metrics[i].metric))
                    == Ok(r.value[i]))
  {
    if metrics != [] {
      VerdictsPointwise(metrics[1..], evidence, policy);
      assert forall i :: 1 <= i < |metrics| ==> metrics[i] == metrics[1..][i - 1];
      if DirectionOf(metrics[0].metric).Ok? && Verdicts(metrics[1..], evidence, policy).Err? {
        var i :| 0 <= i < |metrics[1..]| && DirectionOf(metrics[1..][i].metric).Err?;
        assert DirectionOf(metrics[i + 1].metric).Err?;
      }
    }
  }

  lemma {:induction false} WithOutcomeMembers(verdicts: seq<MetricVerdict>, outcomes: set<Outcome>)
    ensures forall m :: m in WithOutcome(verdicts, outcomes)
                   <==> exists i :: 0 <= i < |verdicts| && verdicts[i].metric == m && verdicts[i].outcome in outcomes
  {
    if verdicts != [] {
      var n := |verdicts| - 1;
      WithOutcomeMembers(verdicts[..n], outcomes);
      forall m
        ensures m in WithOutcome(verdicts, outcomes)
           <==> exists i :: 0 <= i < |verdicts| && verdicts[i].metric == m && verdicts[i].outcome in outcomes
      {
        if i :| 0 <= i < n && verdicts[..n][i].metric == m && verdicts[..n][i].outcome in outcomes {
          assert verdicts[i].metric == m && verdicts[i].outcome in outcomes;
        }
        if i :| 0 <= i < n && verdicts[i].metric == m && verdicts[i].outcome in outcomes {
          assert verdicts[..n][i].metric == m && verdicts[..n][i].outcome in outcomes;
        }
      }
    }
  }

  /** The gate raises exactly when a metric has no direction rule or the policy names a metric
      that was not produced; otherwise verdicts line up with the metrics. */
  lemma GateTotality(result: EvaluationResult, policy: Option<ReleasePolicy>)
    ensures var r := EvaluateGate(result, policy);
            && (r.Ok? <==>
                  && (forall i :: 0 <= i < |result.metrics| ==> DirectionOf(result.metrics[i].metric).Ok?)
                  && (policy.Some? ==> forall m :: m in policy.value.thresholds ==> Produced(result, m)))
            && (r.Err? ==> r.error == ConfigError)
            && (r.Ok? ==> |r.value.verdicts| == |result.metrics|)
  {
    VerdictsPointwise(result.metrics, result.evidence, policy);
    VerdictsPointwise(result.metrics, result.evidence, None);
    if policy.Some? {
      var names := ProducedNames(result.metrics);
      assert forall m :: m in policy.value.thresholds <==> m in policy.value.thresholds.Keys;
      assert forall m :: m in names <==> Produced(result, m);
    }
  }

  /** A gated metric's point value is beyond what its threshold tolerates (for a baseline >= 0). */
  predicate Breached(direction: Direction, baseline: real, candidate: real, t: real) {
    match direction
    case HigherIsBetter => baseline > 0.0 && candidate < baseline - Times(t, baseline)
    case LowerIsBetter => candidate != baseline && (baseline > 0.0 ==> candidate > baseline + Times(t, baseline))
  }

  lemma DivisionBreach(baseline: real, change: real, t: real)
    requires baseline > 0.0
    ensures change / baseline > t <==> change > Times(t, baseline)
  {
    var q := change / baseline;
    assert q * baseline == change;
    assert q > t ==> q * baseline > t * baseline;
    assert q <= t ==> q * baseline <= t * baseline;
  }

  lemma BreachMeaning(direction: Direction, baseline: real, candidate: real, t: real)
    requires baseline >= 0.0 && t >= 0.0
    ensures AdverseChange(direction, baseline, candidate, Some(t)).1 <==> Breached(direction, baseline, candidate, t)
  {
    if baseline > 0.0 {
      DivisionBreach(baseline, baseline - candidate, t);
      DivisionBreach(baseline, candidate - baseline, t);
    }
  }

  /** The whole interval of the paired difference lies beyond what threshold `t` tolerates of the baseline. */
  predicate BeyondTolerance(e: MetricEvidence, direction: Direction, t: real) {
    && e.ciLow.Some? && e.ciHigh.Some?
    && var tolerated := Times(t, e.baseline.mean);
       if direction.HigherIsBetter? then e.ciHigh.value < -tolerated else tolerated < e.ciLow.value
  }

  /** This metric blocks: breached, and either it carries no evidence or at least eight pairs put
      the whole interval beyond the tolerated boundary. */
  ghost predicate Blocks(result: EvaluationResult, p: ReleasePolicy, i: nat)
    requires i < |result.metrics|
  {
    var mc := result.metrics[i];
    && mc.metric in p.thresholds
    && DirectionOf(mc.metric).Ok?
    && var d, t := DirectionOf(mc.metric).value, p.thresholds[mc.metric];
    && Breached(d, mc.baselineValue, mc.candidateValue, t)
    && match EvidenceFor(result.evidence, mc.metric)
       case None => true
       case Some(e) => e.nPairs >= MIN_PAIRS_TO_BLOCK && BeyondTolerance(e, d, t)
  }

  // ----- What the report says -----

  /** By how much a metric got worse, in its own unit. */
  function Worsening(direction: Direction, baseline: real, candidate: real): real {
    match direction
    case HigherIsBetter => baseline - candidate
    case LowerIsBetter => candidate - baseline
  }

  /** The verdict carries the metric's values, threshold and evidence; its change is the worsening as a
      fraction of the baseline, unbounded only for a rise from zero; and its outcome is fixed by whether
      the threshold is breached and what the evidence says of it. */
  ghost predicate VerdictSays(result: EvaluationResult, policy: Option<ReleasePolicy>, i: nat, v: MetricVerdict)
    requires i < |result.metrics|
  {
    var mc := result.metrics[i];
    && v.metric == mc.metric && DirectionOf(mc.metric) == Ok(v.direction)
    && v.baseline == mc.baselineValue && v.candidate == mc.candidateValue
    && v.evidence == EvidenceFor(result.evidence, mc.metric)
    && (v.threshold.Some? <==> policy.Some? && mc.metric in policy.value.thresholds)
    && (v.threshold.Some? ==> v.threshold.value == policy.value.thresholds[mc.metric])
    && (v.adverseChange.None? <==> v.baseline == 0.0 && v.candidate != 0.0 && v.direction.LowerIsBetter?)
    && (v.adverseChange.Some? && v.baseline == 0.0 ==> v.adverseChange.value == 0.0)
    && (v.adverseChange.Some? && v.baseline != 0.0 ==>
          Times(v.adverseChange.value, v.baseline) == Worsening(v.direction, v.baseline, v.candidate))
    && (v.thresholdBreached <==>
          v.threshold.Some? && Breached(v.direction, v.baseline, v.candidate, v.threshold.value))
    && (v.outcome == Pass <==> !v.thresholdBreached)
    && (v.outcome == Regression <==> policy.Some? && Blocks(result, policy.value, i))
    && (v.outcome == LowEvidence <==>
          v.thresholdBreached && v.evidence.Some?
          && (v.evidence.value.nPairs < MIN_PAIRS_TO_BLOCK
              || v.evidence.value.ciLow.None? || v.evidence.value.ciHigh.None?))
  }

  lemma ChangeMeaning(direction: Direction, baseline: real, candidate: real, threshold: Option<real>)
    ensures var change := AdverseChange(direction, baseline, candidate, threshold).0;
            && (change.None? <==> baseline == 0.0 && candidate != 0.0 && direction.LowerIsBetter?)
            && (change.Some? && baseline == 0.0 ==> change.value == 0.0)
            && (change.Some? && baseline != 0.0 ==>
                  Times(change.value, baseline) == Worsening(direction, baseline, candidate))
    ensures threshold.None? ==> !AdverseChange(direction, baseline, candidate, threshold).1
  {
    if baseline != 0.0 {
      var worse := Worsening(direction, baseline, candidate);
      assert Times(worse / baseline, baseline) == worse;
    }
  }

  lemma VerdictMeaning(result: EvaluationResult, policy: Option<ReleasePolicy>, i: nat, v: MetricVerdict)
    requires i < |result.metrics| && result.metrics[i].baselineValue >= 0.0 && (policy.Some? ==> policy.value.Valid())
    requires var mc := result.metrics[i];
             VerdictOf(mc, ThresholdFor(policy, mc.metric), EvidenceFor(result.evidence, mc.metric)) == Ok(v)
    ensures VerdictSays(result, policy, i, v)
  {
    var mc := result.metrics[i];
    ChangeMeaning(v.direction, mc.baselineValue, mc.candidateValue, v.threshold);
    if v.threshold.Some? {
      BreachMeaning(v.direction, mc.baselineValue, mc.candidateValue, v.threshold.value);
    }
  }

  /** Every verdict of a report says so, the report blocks exactly when some metric does, names exactly
      those, and advises on exactly the breaches that do not block. */
  lemma ReportMeaning(result: EvaluationResult, policy: Option<ReleasePolicy>)
    requires EvaluateGate(result, policy).Ok? && (policy.Some? ==> policy.value.Valid())
    requires forall i :: 0 <= i < |result.metrics| ==> result.metrics[i].baselineValue >= 0.0
    ensures var g := EvaluateGate(result, policy).value;
            && g.gated == policy.Some? && |g.verdicts| == |result.metrics|
            && (forall i :: 0 <= i < |g.verdicts| ==> VerdictSays(result, policy, i, g.verdicts[i]))
            && (g.decision == BLOCK <==> g.blocking != [])
            && (forall m :: m in g.blocking <==> Named(g.verdicts, m, {Regression}))
            && (forall m :: m in g.advisories <==> Named(g.verdicts, m, {Inconclusive, LowEvidence}))
            && (policy.Some? ==>
                  && (exists at :: Lists(g.verdicts, {Regression}, g.blocking, at))
                  && (exists at :: Lists(g.verdicts, {Inconclusive, LowEvidence}, g.advisories, at)))
  {
    VerdictsPointwise(result.metrics, result.evidence, policy);
    var g := EvaluateGate(result, policy).value;
    forall i | 0 <= i < |g.verdicts|
      ensures VerdictSays(result, policy, i, g.verdicts[i])
    {
      VerdictMeaning(result, policy, i, g.verdicts[i]);
    }
    WithOutcomeNamed(g.verdicts, {Regression});
    WithOutcomeNamed(g.verdicts, {Inconclusive, LowEvidence});
    var blocks := WithOutcomeLists(g.verdicts, {Regression});
    var advises := WithOutcomeLists(g.verdicts, {Inconclusive, LowEvidence});
    if policy.None? {
      assert forall i :: 0 <= i < |g.verdicts| ==> g.verdicts[i].outcome == Pass;
    }
  }

  /** `names` are the metrics of exactly the verdicts with one of these outcomes, at the increasing
      positions `at`. */
  ghost predicate Lists(verdicts: seq<MetricVerdict>, outcomes: set<Outcome>, names: seq<string>, at: seq<nat>) {
    && |at| == |names|
    && (forall k :: 0 <= k < |at| ==>
          at[k] < |verdicts| && verdicts[at[k]].outcome in outcomes && names[k] == verdicts[at[k]].metric)
    && (forall j, k :: 0 <= j < k < |at| ==> at[j] < at[k])
    && (forall i :: 0 <= i < |verdicts| && verdicts[i].outcome in outcomes ==> i in at)
  }

  lemma ListsGrow(
    verdicts: seq<MetricVerdict>, outcomes: set<Outcome>, names: seq<string>, at: seq<nat>, v: MetricVerdict)
    requires Lists(verdicts, outcomes, names, at)
    ensures v.outcome in outcomes ==> Lists(verdicts + [v], outcomes, names + [v.metric], at + [|verdicts|])
    ensures v.outcome !in outcomes ==> Lists(verdicts + [v], outcomes, names, at)
  {
    var more := verdicts + [v];
    assert forall i :: 0 <= i < |verdicts| ==> more[i] == verdicts[i];
    assert more[|verdicts|] == v;
    if v.outcome in outcomes {
      var later := at + [|verdicts|];
      assert later[|at|] == |verdicts| && forall i :: i in at ==> i in later;
    }
  }

  /** Reasons and advisories come in metric order, one for each verdict that calls for one. */
  lemma {:induction false} WithOutcomeLists(verdicts: seq<MetricVerdict>, outcomes: set<Outcome>) returns (at: seq<nat>)
    ensures Lists(verdicts, outcomes, WithOutcome(verdicts, outcomes), at)
  {
    if verdicts == [] {
      at := [];
    } else {
      var n := |verdicts| - 1;
      var before := WithOutcomeLists(verdicts[..n], outcomes);
      ListsGrow(verdicts[..n], outcomes, WithOutcome(verdicts[..n], outcomes), before, verdicts[n]);
      assert verdicts[..n] + [verdicts[n]] == verdicts;
      at := if verdicts[n].outcome in outcomes then before + [n] else before;
    }
  }

  /** Some verdict on metric `m` has one of these outcomes. */
  ghost predicate Named(verdicts: seq<MetricVerdict>, m: string, outcomes: set<Outcome>) {
    exists i :: 0 <= i < |verdicts| && verdicts[i].metric == m && verdicts[i].outcome in outcomes
  }

  lemma WithOutcomeNamed(verdicts: seq<MetricVerdict>, outcomes: set<Outcome>)
    ensures forall m :: m in WithOutcome(verdicts, outcomes) <==> Named(verdicts, m, outcomes)
  {
    WithOutcomeMembers(verdicts, outcomes);
  }

  /** A gated report blocks exactly when some metric blocks, and names exactly those metrics; it advises on
      exactly the metrics that are breached and do not block. */
  lemma DecisionMeaning(result: EvaluationResult, p: ReleasePolicy)
    requires p.Valid() && EvaluateGate(result, Some(p)).Ok?
    requires forall i :: 0 <= i < |result.metrics| ==> result.metrics[i].baselineValue >= 0.0
    ensures var g := EvaluateGate(result, Some(p)).value;
            && (g.decision == BLOCK <==> exists i :: 0 <= i < |result.metrics| && Blocks(result, p, i))
            && (forall m :: m in g.blocking <==>
                  exists i :: 0 <= i < |result.metrics| && result.metrics[i].metric == m && Blocks(result, p, i))
            && (forall m :: m in g.advisories <==>
                  exists i :: 0 <= i < |result.metrics| && result.metrics[i].metric == m
                    && BreachedAt(result, p, i) && !Blocks(result, p, i))
  {
    var g := EvaluateGate(result, Some(p)).value;
    ReportMeaning(result, Some(p));
    forall m
      ensures m in g.blocking <==>
                exists i :: 0 <= i < |result.metrics| && result.metrics[i].metric == m && Blocks(result, p, i)
    {
      BlockingNamed(result, p, g.verdicts, m);
    }
    forall m
      ensures m in g.advisories <==>
                exists i :: 0 <= i < |result.metrics| && result.metrics[i].metric == m
                  && BreachedAt(result, p, i) && !Blocks(result, p, i)
    {
      AdvisedNamed(result, p, g.verdicts, m);
    }
    if g.blocking != [] {
      assert g.blocking[0] in g.blocking;
    }
    if i :| 0 <= i < |result.metrics| && Blocks(result, p, i) {
      assert result.metrics[i].metric in g.blocking;
    }
  }

  /** Metric `i` is gated and beyond its threshold. */
  ghost predicate BreachedAt(result: EvaluationResult, p: ReleasePolicy, i: nat)
    requires i < |result.metrics|
  {
    var mc := result.metrics[i];
    && mc.metric in p.thresholds && DirectionOf(mc.metric).Ok?
    && Breached(DirectionOf(mc.metric).value, mc.baselineValue, mc.candidateValue, p.thresholds[mc.metric])
  }

  ghost predicate AllSay(result: EvaluationResult, p: ReleasePolicy, verdicts: seq<MetricVerdict>) {
    && |verdicts| == |result.metrics|
    && forall i :: 0 <= i < |verdicts| ==> VerdictSays(result, Some(p), i, verdicts[i])
  }

  lemma BlockingNamed(result: EvaluationResult, p: ReleasePolicy, verdicts: seq<MetricVerdict>, m: string)
    requires AllSay(result, p, verdicts)
    ensures Named(verdicts, m, {Regression}) <==>
              exists i :: 0 <= i < |result.metrics| && result.metrics[i].metric == m && Blocks(result, p, i)
  {
    if i :| 0 <= i < |verdicts| && verdicts[i].metric == m && verdicts[i].outcome in {Regression} {
      assert Blocks(result, p, i) && result.metrics[i].metric == m;
    }
    if i :| 0 <= i < |result.metrics| && result.metrics[i].metric == m && Blocks(result, p, i) {
      assert verdicts[i].metric == m && verdicts[i].outcome in {Regression};
    }
  }

  lemma AdvisedNamed(result: EvaluationResult, p: ReleasePolicy, verdicts: seq<MetricVerdict>, m: string)
    requires AllSay(result, p, verdicts)
    ensures Named(verdicts, m, {Inconclusive, LowEvidence}) <==>
              exists i :: 0 <= i < |result.metrics| && result.metrics[i].metric == m
                && BreachedAt(result, p, i) && !Blocks(result, p, i)
  {
    forall i | 0 <= i < |verdicts|
      ensures verdicts[i].outcome in {Inconclusive, LowEvidence} <==> BreachedAt(result, p, i) && !Blocks(result, p, i)
    {
      assert VerdictSays(result, Some(p), i, verdicts[i]);
    }
    if i :| 0 <= i < |verdicts| && verdicts[i].metric == m && verdicts[i].outcome in {Inconclusive, LowEvidence} {
      assert BreachedAt(result, p, i) && result.metrics[i].metric == m;
    }
    if i :| 0 <= i < |result.metrics| && result.metrics[i].metric == m
            && BreachedAt(result, p, i) && !Blocks(result, p, i) {
      assert verdicts[i].metric == m && verdicts[i].outcome in {Inconclusive, LowEvidence};
    }
  }

  /** Without a policy nothing ever blocks. */
  lemma UngatedPasses(result: EvaluationResult)
    ensures var r := EvaluateGate(result, None);
            r.Ok? ==> r.value.decision == PASS && !r.value.gated
                      && forall i :: 0 <= i < |r.value.verdicts| ==> r.value.verdicts[i].outcome == Pass
  {
    VerdictsPointwise(result.metrics, result.evidence, None);
    var r := EvaluateGate(result, None);
    if r.Ok? {
      forall i | 0 <= i < |r.value.verdicts|
        ensures r.value.verdicts[i].outcome == Pass
      {
        var mc := result.metrics[i];
        assert VerdictOf(mc, None, EvidenceFor(result.evidence, mc.metric)) == Ok(r.value.verdicts[i]);
      }
    }
  }

  // ----- Loosening a policy -----

  /** Fewer gated metrics, each with at least the old tolerance. */
  ghost predicate Looser(loose: ReleasePolicy, tight: ReleasePolicy) {
    forall m :: m in loose.thresholds ==> m in tight.thresholds && loose.thresholds[m] >= tight.thresholds[m]
  }

  /** Observed quantities are never negative, so neither are the values compared. */
  ghost predicate NonNegative(result: EvaluationResult) {
    && (forall i :: 0 <= i < |result.metrics| ==> result.metrics[i].baselineValue >= 0.0)
    && (forall i :: 0 <= i < |result.evidence| ==> result.evidence[i].baseline.mean >= 0.0)
  }

  lemma {:induction false} EvidenceForIsMember(evidence: seq<MetricEvidence>, metric: string)
    ensures match EvidenceFor(evidence, metric)
            case None => forall i :: 0 <= i < |evidence| ==> evidence[i].metric != metric
            case Some(e) => e in evidence && e.metric == metric
  {
    if evidence != [] {
      EvidenceForIsMember(evidence[..|evidence| - 1], metric);
      assert forall i :: 0 <= i < |evidence| - 1 ==> evidence[..|evidence| - 1][i] == evidence[i];
    }
  }

  lemma ToleranceMonotone(t: real, t': real, ref: real)
    requires t <= t' && ref >= 0.0
    ensures Times(t, ref) <= Times(t', ref)
  {
  }

  lemma BlocksAntitone(result: EvaluationResult, loose: ReleasePolicy, tight: ReleasePolicy, i: nat)
    requires i < |result.metrics| && NonNegative(result) && Looser(loose, tight)
    requires Blocks(result, loose, i)
    ensures Blocks(result, tight, i)
  {
    var mc := result.metrics[i];
    var t, t' := tight.thresholds[mc.metric], loose.thresholds[mc.metric];
    ToleranceMonotone(t, t', mc.baselineValue);
    EvidenceForIsMember(result.evidence, mc.metric);
    match EvidenceFor(result.evidence, mc.metric)
    case None =>
    case Some(e) =>
      var k :| 0 <= k < |result.evidence| && result.evidence[k] == e;
      ToleranceMonotone(t, t', e.baseline.mean);
  }

  /** Loosening a policy never adds a blocking metric, so it never turns PASS into BLOCK. */
  lemma BlockingAntitoneInPolicy(result: EvaluationResult, loose: ReleasePolicy, tight: ReleasePolicy)
    requires NonNegative(result) && loose.Valid() && tight.Valid() && Looser(loose, tight)
    requires EvaluateGate(result, Some(tight)).Ok?
    ensures EvaluateGate(result, Some(loose)).Ok?
    ensures var l, t := EvaluateGate(result, Some(loose)).value, EvaluateGate(result, Some(tight)).value;
            && (forall m :: m in l.blocking ==> m in t.blocking)
            && (t.decision == PASS ==> l.decision == PASS)
  {
    GateTotality(result, Some(loose));
    GateTotality(result, Some(tight));
    DecisionMeaning(result, loose);
    DecisionMeaning(result, tight);
    forall i | 0 <= i < |result.metrics| && Blocks(result, loose, i)
      ensures Blocks(result, tight, i)
    {
      BlocksAntitone(result, loose, tight, i);
    }
  }
}
