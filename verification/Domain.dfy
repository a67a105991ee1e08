/** Entities and value objects, with the validity conditions their constructors enforce. */
module Domain {
  import opened Basics
  import opened Ordering

  // ----- Tool activity -----

  /** A JSON value as Python holds it; a mapping lists its entries in insertion order. */
  datatype Value =
    | Null
    | Bool(flag: bool)
    | Number(number: real)
    | Text(text: string)
    | List(items: seq<Value>)
    | Mapping(entries: seq<Entry>)

  datatype Entry = Entry(key: string, value: Value)

  datatype ToolCall = ToolCall(name: string, arguments: seq<Entry>, ok: bool)

  datatype ExpectedToolCall = ExpectedToolCall(name: string, arguments: Option<seq<Entry>>)

  // ----- Datasets and experiments -----

  datatype DatasetCase = DatasetCase(id: string, input: string, expectedToolCalls: seq<ExpectedToolCall>)

  datatype Dataset = Dataset(id: string, cases: seq<DatasetCase>) {
    /** A dataset has cases, and no two share an id. */
    ghost predicate Valid() {
      && cases != []
      && (forall i, j :: 0 <= i < j < |cases| ==> cases[i].id != cases[j].id)
    }
  }

  datatype Experiment = Experiment(
    id: string,
    datasetId: string,
    baselineVersionId: string,
    candidateVersionId: string,
    repeats: int)
  {
    predicate Valid() {
      baselineVersionId != candidateVersionId && repeats >= 1
    }
  }

  // ----- Runs and scores -----

  datatype Usage = Usage(promptTokens: nat, completionTokens: nat, costUsd: real, latencyMs: real)

  /** The constructor rejects negative usage. */
  type UsageMetrics = u: Usage | u.costUsd >= 0.0 && u.latencyMs >= 0.0 witness ZERO_USAGE

  const ZERO_USAGE := Usage(0, 0, 0.0, 0.0)

  datatype Run = Run(
    id: string,
    experimentId: string,
    versionId: string,
    caseId: string,
    repeatIndex: nat,
    output: string,
    usage: UsageMetrics,
    error: Option<string>,
    toolCalls: seq<ToolCall>)
  {
    function Key(): PairKey { PairKey(caseId, repeatIndex) }
  }

  datatype Score = Score(evaluator: string, score: real, passed: Option<bool>)

  /** The constructor rejects scores outside [0, 1]. */
  type EvaluatorScore = s: Score | 0.0 <= s.score <= 1.0 witness Score("", 0.0, None)

  datatype Scorecard = Scorecard(runId: string, scores: seq<EvaluatorScore>)

  ghost predicate DistinctEvaluators(scores: seq<EvaluatorScore>) {
    forall i, j :: 0 <= i < j < |scores| ==> scores[i].evaluator != scores[j].evaluator
  }

  /** The constructor rejects a second score from one evaluator. */
  type CaseResult = c: Scorecard | DistinctEvaluators(c.scores) witness Scorecard("", [])

  /** Raw output of one execution; `caseResults[i]` scores `runs[i]`. */
  datatype RunOutcome = RunOutcome(runs: seq<Run>, caseResults: seq<CaseResult>)

  // ----- Metrics and evidence -----

  datatype MetricComparison = MetricComparison(metric: string, baselineValue: real, candidateValue: real)

  datatype MetricKind = Binary | Continuous

  datatype SampleSummary = SampleSummary(n: nat, mean: real)

  datatype MetricEvidence = MetricEvidence(
    metric: string,
    kind: MetricKind,
    nPairs: nat,
    baseline: SampleSummary,
    candidate: SampleSummary,
    pairedDelta: SampleSummary,
    delta: real,
    relativeChange: Option<real>,
    confidenceLevel: real,
    ciLow: Option<real>,
    ciHigh: Option<real>,
    ciExcludesZero: bool,
    insufficientEvidence: bool,
    resamples: int,
    seed: int,
    droppedProviderFailures: int)
  {
    /** What the constructor checks of the numbers. */
    predicate Valid() {
      && 0.0 < confidenceLevel < 1.0
      && ciLow.Some? == ciHigh.Some?
      && (ciLow.Some? && ciHigh.Some? ==> ciLow.value <= ciHigh.value)
      && droppedProviderFailures >= 0
      && baseline.n == candidate.n == pairedDelta.n == nPairs
    }
  }

  datatype EvaluationResult = EvaluationResult(
    experimentId: string,
    metrics: seq<MetricComparison>,
    evidence: seq<MetricEvidence>)
  {
    /** Metric names are distinct, and so are evidence names; every evidence item is valid. */
    ghost predicate Valid() {
      && (forall i, j :: 0 <= i < j < |metrics| ==> metrics[i].metric != metrics[j].metric)
      && (forall i, j :: 0 <= i < j < |evidence| ==> evidence[i].metric != evidence[j].metric)
      && (forall i :: 0 <= i < |evidence| ==> evidence[i].Valid())
    }
  }

  /** Maximum tolerated adverse change per gated metric, as a fraction. */
  datatype ReleasePolicy = ReleasePolicy(thresholds: map<string, real>) {
    ghost predicate Valid() {
      forall m :: m in thresholds ==> thresholds[m] >= 0.0
    }
  }
}
