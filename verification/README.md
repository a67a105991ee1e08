# EvalOps: verified model

A Dafny 4.11 model of the decision core of EvalOps, the tool that runs a baseline and a candidate
version of a system over a dataset, compares them, and says whether the candidate may be released.
`dafny verify dfyconfig.toml` checks everything.

Three parts are modelled, each with the promises that span its functions.

**The release decision.** `run_experiment` fills a grid of runs, which is then read three ways:
averaged in execution order (`aggregate_results`), paired by (case, repeat) in key order and
bootstrapped (`build_statistical_evidence`), and searched pair by pair for findings
(`diagnose_regressions`). `evaluate_gate` mixes the first two. Modules `Runner`, `Aggregate`,
`Observations`, `Pairing`, `Bootstrap`, `Gate` and `Diagnostics` model the code, `Ranks` says by counting
what a percentile is; `Grid`, `Guard`, `Pipeline`, `Usage`, `Latency`, `UnitChange`, `Conservation`,
`Explanation` and `OrderFree` prove what holds across them. Numbers are exact reals. `random.Random` is an arbitrary function into the allowed index
range, so every theorem about the bootstrap holds for every seed.

**Background runs.** `Jobs` is the life cycle of a job row, `JobRepository` the row objects that
repositories assign in place and the unit of work around them, `Persistence` and `ExecutionService`
the evaluation transaction, `Tasks` the enqueuer and the worker as sequences of units of work.
`Protocol` lets any number of them run interleaved, with a broker that may lose or repeat messages
and processes that may die between any two steps, and proves its invariant;
`ProtocolSafety` proves what follows for every run. `ProtocolRefinement` proves that the units of work of
the code are the steps of the protocol, `TaskRefinement` that a whole enqueuer and a whole worker are runs
of it, and `ReachableTables` carries every run, case result and result row through all its runs. The
already-run check and the commit of an evaluation are apart in it, so several transactions can pass the
check; dispatch may raise whether or not the message was sent, and a worker may raise before or after its
evaluation has committed.

**Agent evaluators.** `Trajectory`, `Selection`, `Canonical` and `ToolArguments` are the loops that
score tool use, whose results feed the decision.

`Mapping` is the way of results, case results and datasets through their rows and back. `Basics`,
`Sequences`, `Ordering` and `Domain` hold what the others share.

What stands outside is a parameter: provider answers, prompt rendering and evaluators (`World`,
`Evaluator`), the random stream (`Rng`), the clock (a moment passed to each transition), new ids (`World.newId`,
assumed never to repeat), and whether dispatch raised.

Where the code and its documentation part, the model follows the code:

- "Structural" argument equality holds only while mappings and lists stand at the same places: a mapping of
  one pair as the value of an argument is matched by the list of that pair, and the call gets the full score
  (`ToolArguments.NestedMappingCollides`); `ToolArguments.FullScoreIsStructural` says exactly when a full score
  means the same structure.

And these follow from the code without being documented:

- Findings are documented for a verdict that turns from passed to failed and for a score drop. The pass rate
  also loses a pass whose verdict becomes undecided (`passed is None`), and if the score did not fall by more
  than the threshold there is no finding (`Explanation.UndecidedVerdictIsSilent`);
  `Explanation.LostPassReportedExactly` says when there is one. No evaluator of the repository leaves a verdict
  undecided, so this takes a custom one; with boolean verdicts a block on a pass rate always has a finding
  (`Explanation.BooleanPassBlockReported`).
- The two latency means speak of the same runs only when failures come in pairs
  (`Latency.EvidenceCoversLatenciesExactly`); `Latency.LatencyMeansDiffer` is a gated result in which they differ.
- A job can be recorded as failed although its evaluation was committed, in two ways: dispatch raises although
  the message was sent (`ProtocolSafety.FailedWithResultHappens`), or the worker raises after its own commit but
  still inside the handled block, as the soft time limit can (`ProtocolSafety.FailedLateHappens`). Either way it
  takes one of these two moments (`ProtocolSafety.FailedWithResultOnlyIfExcused`), and a job that failed before
  it was started never owns a result (`ProtocolSafety.FailedUnstartedNeverOwns`).

## Model

| member | source | states |
|---|---|---|
| Trajectory.LcsIsLongest | src/evalops/agent_evaluators.py:68-78 | The length the dynamic program is about is that of a longest common subsequence: one of that length exists and none is longer. |
| Trajectory.LcsLen | src/evalops/agent_evaluators.py:68-78 | The rolling-row loop, including the early return for an empty side, returns exactly that length. |
| Trajectory.TrajectoryScoreIsSimilarity | src/evalops/agent_evaluators.py:220-224 | The trajectory score is in [0, 1], symmetric, 0 exactly when no tool name is shared and 1 exactly when the two sequences are equal. |
| Trajectory.EvaluateTrajectory | src/evalops/agent_evaluators.py:220-227 | Raises exactly when nothing is expected; otherwise the score times the two lengths together is twice the length of a longest common subsequence, and `passed` compares it with the minimum. |
| Selection.SelectionFollowsTrajectory | src/evalops/agent_evaluators.py:105-113 | Tool selection ignores order and repetition, is 0 exactly when the trajectory score is 0, and is 1 whenever the trajectory score is 1. |
| Selection.EvaluateSelection | src/evalops/agent_evaluators.py:105-113 | Raises exactly when nothing is expected; otherwise the score times the number of all names is the number of shared ones, so 1 exactly for the same name set and 0 when nothing was called. |
| Canonical.CanonicalFormIsStructural | src/evalops/agent_evaluators.py:39-50 | Canonical form is unchanged by reordering mapping keys at any depth, and separates values that differ structurally when mappings and lists stand at the same places. |
| ToolArguments.NestedMappingCollides | src/evalops/agent_evaluators.py:152-163 | Shapes matter: an authored mapping of one pair as an argument value is matched by a list of that pair, so well-formed arguments of another structure get the full score. |
| ToolArguments.FullScoreIsStructural | src/evalops/agent_evaluators.py:152-163 | For arguments with distinct keys at every depth: every tool's labelled arguments have the structure of a prefix of its calls exactly when everything matched and no list faces a mapping. |
| ToolArguments.MatchesIsSum | src/evalops/agent_evaluators.py:152-162 | The matches the running counters find are the sum, over the tools the expectations name, of the positions at which the expectations and the calls of that tool agree. |
| ToolArguments.FullScoreIsPrefixMatch | src/evalops/agent_evaluators.py:152-163 | Everything matches exactly when, for every tool, the labelled arguments are canonically equal to a prefix of the calls to that tool. |
| ToolArguments.GroupByName | src/evalops/agent_evaluators.py:149-151 | Grouping observed calls by name keeps, for each tool, exactly its calls in order. |
| ToolArguments.CountMatched | src/evalops/agent_evaluators.py:153-162 | The loop with per-tool counters computes the positional matches. |
| ToolArguments.LabelledAreGiven | src/evalops/agent_evaluators.py:142-145 | The labelled calls are exactly the expectations whose arguments are given, an empty mapping included, each once and in order. |
| ToolArguments.EvaluateToolArguments | src/evalops/agent_evaluators.py:142-166 | Raises exactly when no expectation gives arguments; the score is matched over labelled, is 1 exactly for prefix matches of every tool, and for well-formed arguments of the same shapes exactly for structural ones. |
| Runner.VersionCellsCover | src/evalops/runner.py:73-80 | The nested loops visit every (case, repeat) of a version once and nothing else. |
| Runner.VisitMeaning | src/evalops/runner.py:85-160 | A visited cell has a failed run, with the error text, no output, zero usage and no scores, exactly when its call failed at the provider; an answered call gives a run with that answer, and score k is what evaluator k returned for it. It raises exactly what its template, its call or its first raising evaluator raised, or on two scores of one label. |
| Runner.RefusedByPreflight | src/evalops/runner.py:157-184 | Refused exactly when an id is not the one the experiment names, a provider is missing, or two evaluators share a name. |
| Runner.RunExperiment | src/evalops/runner.py:49-82 | On success run `i` and case result `i` are those the provider and the evaluators gave for grid cell `i`; otherwise the error is that of the first cell that raised, or of preflight. |
| Runner.RunRepeats | src/evalops/runner.py:76-80 | The inner loop extends the visited cells by all repeats of one case, or stops at the first failure. |
| Grid.RunnerProducesGrid | src/evalops/runner.py:49-82 | Whatever providers and evaluators do, a finished run is a full grid of cases x repeats pairs with aligned, readable case results. |
| Grid.SuccessRateIsAnsweredShare | src/evalops/aggregate.py:111-114 | In a finished run a version's success rate is the share of its cells whose call was answered. |
| Aggregate.SuccessRateIsMean | src/evalops/aggregate.py:111-114 | The success rate is the mean of the 0/1 success observations. |
| Aggregate.PassRateOf | src/evalops/aggregate.py:117-136 | The counting loop returns the mean of the pass observations over all runs, failed ones counting as not passed; it raises exactly when a successful run lacks the score. |
| Aggregate.MeanScoreOf | src/evalops/aggregate.py:139-162 | The accumulating loop returns the mean score with failed runs scored 0; same error condition. |
| Aggregate.P95IsNearestRank | src/evalops/aggregate.py:174-179 | The 95th percentile occurs in the sample, at least 95% of the values are at most it, fewer than 95% are below it, and the order of the sample is immaterial. |
| Aggregate.UsageRows | src/evalops/aggregate.py:91-107 | The rows of p95 latency and total cost carry, as baseline and candidate value, the nearest-rank 95th percentile of that version's successful latencies and the accumulated cost of all its runs. |
| Aggregate.ValidateOutcome | src/evalops/aggregate.py:186-226 | Reports nothing exactly when ids are distinct, runs and case results align, and every successful run has one score per evaluator. |
| Aggregate.RateNamesDiffer | src/evalops/aggregate.py:19-40 | Two different rates never share a metric name, whatever the evaluator names. |
| Aggregate.MetricNamesDistinct | src/evalops/aggregate.py:19-40 | With distinct evaluator names the expected metric names are pairwise distinct. |
| Aggregate.MetricsNamed | src/evalops/aggregate.py:56-108 | The emitted metrics carry exactly the expected names, in that order. |
| Aggregate.AggregateResults | src/evalops/aggregate.py:43-108 | Raises exactly on an invalid outcome or an absent version; otherwise the metrics in order, as a valid result, with p95 latency and total cost the 95th percentile and the accumulated cost of each version's own runs. |
| Observations.RunsByKey | src/evalops/stats.py:102-115 | Indexes the runs of one version by (case, repeat); raises exactly when two of them share a key. |
| Pairing.PairRuns | src/evalops/stats.py:202-214 | Pairs both versions on their common keys in ascending key order; raises exactly on a repeated key. |
| Pairing.UnmatchedRuns | src/evalops/stats.py:202-214 | Unmatched are the runs of either version at keys the other lacks. |
| Pairing.SeriesSpeak | src/evalops/stats.py:216-295 | Each series, by position: every rate over all pairs, with its kind and the observations of both sides pair by pair; mean latency over the pairs in which neither side failed; mean cost over all pairs; comparable and dropped pairs add up. |
| Pairing.PairedObservations | src/evalops/stats.py:192-295 | All series in emission order; raises exactly on repeated names, a repeated key, or an observation that cannot be read. |
| Pairing.EvidenceSeqBuilt | src/evalops/stats.py:410-438 | Every aligned series yields its item, in order, valid, drawn from its own stream. |
| Pairing.EvidenceSeqSpeaks | src/evalops/stats.py:410-438 | Item `i` carries the name, kind, counts, means, interval and settings of series `i`, baseline and candidate in their places. |
| Pairing.BuildStatisticalEvidence | src/evalops/stats.py:410-438 | One item for each series of the pairing, in order, speaking of that series on the stream seeded `seed + i`; or the pairing error. |
| Grid.GridPairs | src/evalops/stats.py:202-214 | On a full grid pairing is total: as many pairs as cases x repeats, nothing unmatched. |
| Grid.PairedMeansMatchAggregate | src/evalops/stats.py:192-267 | For the success rate and every pass rate and mean score, the paired means in sorted key order equal the aggregate values summed in execution order. |
| Latency.SameLatenciesExactly | src/evalops/stats.py:269-279 | The latency evidence reads the latencies the aggregate averages exactly when, in every pair, both sides failed or neither did. |
| Latency.LatencyMeansAgree | src/evalops/stats.py:269-279 | Then, on a full grid, the two latency means agree. |
| Latency.EvidenceCoversLatenciesExactly | src/evalops/stats.py:269-279 | In the result of a full grid, the latency evidence counts as many pairs as each version has successful runs exactly when failures come in pairs. |
| Latency.EveryPairSlowerAlwaysBlocks | src/evalops/gate.py:193-245 | End to end, for every stream: when failures come in pairs, at least eight succeeded pairs all slower by more than threshold x baseline mean always block a release gated on mean latency. |
| Latency.ConstantLatencyDifferenceVerdict | src/evalops/gate.py:209-245 | With at least eight equal latency differences and failures in pairs, gated mean latency regresses exactly when its threshold is breached and passes otherwise. |
| Latency.LatencyMeansDiffer | src/evalops/aggregate.py:165-171 | For any experiment, a full grid outcome of two cases whose result says 1 for the baseline's mean latency in the evidence and 2 in the metric. |
| Bootstrap.PercentileFacts | src/evalops/stats.py:298-306 | A percentile is in the range of the sample and grows with its level; indices stay in bounds. |
| Ranks.AtRankCounts | src/evalops/stats.py:298-306 | A value at fractional rank r: more members than r, rounded down, are at most it, and at most that many, rounded up, are below it. |
| Bootstrap.PercentileAtLevel | src/evalops/stats.py:298-306 | The percentile at level q of n values stands at rank q(n - 1): the k-th smallest member if that is k, else as far between the two neighbouring members, ranks being told by counting members; there is only one such value. |
| Bootstrap.PairedBootstrapCi | src/evalops/stats.py:309-349 | The nested loops compute an interval whose ends are the values at levels (1 - c)/2 and 1 - (1 - c)/2 of the means of the resamples, with the same argument errors; none below three pairs. |
| Bootstrap.IntervalAtLevels | src/evalops/stats.py:309-346 | So for every stream, the collapsed interval of equal differences included. |
| Bootstrap.ExchangeNegates | src/evalops/stats.py:309-349 | Exchanging baseline and candidate, with the same stream, turns [l, h] into [-h, -l]. |
| Bootstrap.IntervalWithinRange | src/evalops/stats.py:309-349 | For every random stream the interval is not inverted and lies within any bounds on the paired differences. |
| Bootstrap.IntervalWellFormed | src/evalops/stats.py:309-349 | Two actual paired differences enclose the interval. |
| Bootstrap.EvidenceSpeaks | src/evalops/stats.py:352-407 | An item states the pair count, both means, their difference and its ratio to the baseline mean, the interval of its own stream, and whether that excludes zero. |
| Bootstrap.EvidenceNeverRejected | src/evalops/stats.py:352-407 | For every stream, any resamples >= 1 and any confidence in (0, 1), constructing the evidence never fails, and what it says of counts and means is right. |
| Bootstrap.IntervalScales | src/evalops/stats.py:309-349 | Multiplying both series by a positive constant multiplies both ends, with the same stream. |
| Gate.GateTotality | src/evalops/gate.py:89-149 | The gate raises exactly when a metric has no direction rule or the policy names a metric not produced. |
| Gate.BreachMeaning | src/evalops/gate.py:161-177 | A threshold is breached exactly when the change is beyond threshold x baseline, including a zero baseline. |
| Gate.DecisionMeaning | src/evalops/gate.py:118-139 | The decision is BLOCK exactly when some gated metric is breached and either has no evidence or has at least eight pairs whose whole interval is beyond the boundary; the reasons name exactly those, the advisories exactly the other breached metrics. |
| Gate.ReportMeaning | src/evalops/gate.py:89-190 | Every verdict carries its metric's two values, threshold and evidence; its change times the baseline is how much the metric got worse, unbounded only for a rise from zero; and its outcome is fixed by breach and evidence. |
| Gate.WithOutcomeLists | src/evalops/gate.py:126-131 | Reasons and advisories come in metric order, one for each verdict that calls for one. |
| Gate.UngatedPasses | src/evalops/gate.py:89-139 | Without a policy nothing blocks and the decision is PASS. |
| Gate.BlockingAntitoneInPolicy | src/evalops/gate.py:118-132 | Raising thresholds or removing gated metrics never adds a blocking metric and never turns PASS into BLOCK. |
| Guard.NoPairWorseNeverConfirms | src/evalops/gate.py:220-245 | If no pair is worse, no interval of any stream confirms a regression. |
| Guard.EveryPairWorseBlocks | src/evalops/gate.py:193-245 | In either direction: if at least eight pairs are all worse by more than the tolerated amount, the point test is breached and every interval confirms it. |
| Guard.ConstantDifferenceRefinesToPointTest | src/evalops/stats.py:332-334 | In either direction, with at least eight equal differences the guarded outcome is the plain point test. |
| Pipeline.RunEvaluation | src/evalops/execution.py:125-145 | After preflight, with evaluators that label scores with their own name, the only failures are exceptions raised by templates, providers or evaluators and a policy naming an unexpected metric; the result is valid and gated. |
| Pipeline.EveryMetricHasDirection | src/evalops/gate.py:142-149 | Every metric an evaluation emits has a direction rule. |
| Pipeline.GateFailsOnlyOnUnknownMetric | src/evalops/config.py:207-213 | On an evaluation result the gate fails exactly when the policy names a metric outside the expected names. |
| Pipeline.RateRow | src/evalops/gate.py:161-190 | A rate is judged on the means of the very series its evidence is built from, over all pairs, none dropped, and its delta is the mean of the paired differences. |
| Pipeline.LatencyRow | src/evalops/stats.py:269-279 | Mean latency is judged with evidence over the pairs in which neither side failed; pairs used and dropped add up. |
| Usage.DeterministicBlocks | src/evalops/gate.py:193-206 | On every pipeline result the gate blocks on p95 latency and on total cost exactly when they are gated and the candidate's value exceeds the baseline's by more than threshold x baseline, or is positive over zero. |
| Usage.SlowTailBlocksExactly | src/evalops/aggregate.py:174-179 | Stated on the runs: so it does on p95 latency, of the 95th percentiles of the two versions' latencies. |
| Usage.DearerBlocksExactly | src/evalops/aggregate.py:102-106 | And on total cost, of what all runs of each version cost. |
| Usage.NoGrowthNeverBlocks | src/evalops/gate.py:161-177 | So a candidate that is no slower and no dearer never blocks on them. |
| Usage.CostEvidenceAddsUp | src/evalops/stats.py:281-294 | On a full grid n times either mean of the cost evidence is what all runs of that side cost together. |
| Pipeline.NoPairWorseNeverBlocks | src/evalops/gate.py:193-245 | End to end, for every stream: a rate on which no matched pair got worse, or mean latency with no comparable pair slower, never blocks. |
| Pipeline.EveryPairWorseAlwaysBlocks | src/evalops/gate.py:193-245 | End to end, for every stream: at least eight pairs all worse by more than threshold x baseline mean on a gated rate always block the release. |
| Pipeline.ConstantDifferenceVerdict | src/evalops/gate.py:209-245 | End to end: with at least eight equal differences a gated rate blocks exactly when its threshold is breached and is never inconclusive. |
| Pipeline.LooserPolicyNeverBlocksMore | src/evalops/gate.py:118-132 | On every pipeline result a looser policy never blocks where a tighter one passes. |
| Pipeline.FinalResultValid | src/evalops/domain/entities.py:304-315 | The evaluated result satisfies its constructor: distinct metric and evidence names, valid evidence. |
| UnitChange.MetricsScale | src/evalops/aggregate.py:165-179 | Multiplying every latency by a positive constant multiplies mean and p95 latency by it and leaves every other metric. |
| UnitChange.EvidenceScales | src/evalops/stats.py:309-346 | With the same stream only the mean-latency evidence changes, both interval ends being multiplied. |
| UnitChange.UnitChangeKeepsDecision | src/evalops/gate.py:152-245 | Every outcome and the decision are unchanged. |
| Diagnostics.FindOnPair | src/evalops/diagnostics.py:208-277 | The findings of a pair are exactly those called for - a new provider failure, else per evaluator that scored both a verdict gone from passed to failed, or else a score fallen by more than the threshold - each once, in evaluator order. |
| Diagnostics.PairFindingsExactly | src/evalops/diagnostics.py:238-277 | That set of findings, in both directions, with runs, category and kind. |
| Diagnostics.NothingWorseNothingFound | src/evalops/diagnostics.py:238-277 | A pair on which nothing got worse, or by no more than the threshold, has no finding. |
| Diagnostics.CategoryMeaning | src/evalops/diagnostics.py:79-97 | Which evaluators each category speaks of. |
| Diagnostics.GroupBy | src/evalops/diagnostics.py:332-340 | Groups keep the findings of each key in order, each key listed once. |
| Diagnostics.CategoryCounts | src/evalops/diagnostics.py:332-343 | One row per occurring category with its distinct pairs and cases, most pairs first, then by name. |
| Diagnostics.EvaluatorCounts | src/evalops/diagnostics.py:346-363 | One row per occurring evaluator with pairs, cases, lost passes and score drops. |
| Diagnostics.RowsSay | src/evalops/diagnostics.py:332-363 | Every category row counts the distinct pairs and cases with a finding of it, every evaluator row also its lost passes and its score drops, each kind by itself. |
| Diagnostics.ChooseRepresentative | src/evalops/diagnostics.py:366-395 | The representative repeat has the most findings, the lowest index among equals. |
| Diagnostics.RegressingCases | src/evalops/diagnostics.py:366-395 | One row per case with findings: its categories and evaluators in order, finding count, provider-failure flag and representative. |
| Diagnostics.DiagnoseRegressions | src/evalops/diagnostics.py:280-329 | Raises exactly on a repeated key; otherwise the full report of the paired findings. |
| Conservation.PairFindingsShape | src/evalops/diagnostics.py:238-277 | A pair whose candidate alone failed has exactly one finding, a failed baseline leaves none, every finding carries its pair's key. |
| Conservation.FindingsConserved | src/evalops/diagnostics.py:332-395 | Per-case counts add up to all findings, and so do lost passes and score drops together with provider failures. |
| Conservation.ReportConserves | src/evalops/diagnostics.py:280-395 | Both hold of every report the diagnosis produces. |
| Explanation.PassDropAccounted | src/evalops/diagnostics.py:238-277 | The drop in an evaluator's passes is at most its lost-pass findings plus provider-failure findings plus passes whose verdict vanished. |
| Explanation.SuccessBlockExplained | src/evalops/diagnostics.py:280-329 | A block on the success rate has a regressing pair. |
| Explanation.OutcomeFindingsExactly | src/evalops/diagnostics.py:280-329 | The findings of an outcome are exactly those that one of its pairs calls for. |
| Explanation.LostPassesReported | src/evalops/diagnostics.py:280-329 | In the findings of a whole outcome, a pair that lost its pass is reported at its key exactly unless the pass was lost silently. |
| Explanation.PassBlockExplained | src/evalops/diagnostics.py:280-329 | A block on a pass rate has a pair that lost its pass, and every such pair is reported at its key exactly unless its verdict vanished without the score falling by more than the threshold. |
| Explanation.BooleanPassBlockReported | src/evalops/diagnostics.py:280-329 | With boolean verdicts a block on a pass rate has a regressing pair, with a finding of that evaluator or of a provider failure. |
| Explanation.MeanScoreDropExplained | src/evalops/diagnostics.py:280-329 | A mean score that fell by more than the reporting threshold has a finding. |
| Explanation.LostPassReportedExactly | src/evalops/diagnostics.py:250-275 | For any pair that lost its pass, the findings returned for it include one of that evaluator or of the provider failure exactly when the candidate failed, was judged failed, or lost more than the reporting threshold. |
| Explanation.UndecidedVerdictIsSilent | src/evalops/diagnostics.py:250-275 | A pass followed by an undecided verdict of the same score lowers the pass rate and has no finding. |
| OrderFree.DiagnosisForgetsOrder | src/evalops/diagnostics.py:187-200 | Pairs and findings do not depend on the order of runs and case results. |
| OrderFree.ReportForgetsOrder | src/evalops/diagnostics.py:280-395 | Nor does the whole report. |
| Jobs.BoundError | src/evalops/db/repositories.py:192-196 | Stored failure text is at most 2000 characters and not blank; short text is stored stripped, long text keeps its first 1999 characters. |
| Jobs.TransitionsTotal | src/evalops/db/repositories.py:225-266 | With a clock that has not gone back, a transition is refused exactly for the state the job is in, and leaves a valid job of the same run. |
| Jobs.TransitionsRecord | src/evalops/db/repositories.py:225-266 | A start records its moment and its task id if one is given; an end its moment and the result, or the bounded text; and nothing else changes. |
| Jobs.RefusedByClock | src/evalops/domain/entities.py:371-419 | A clock that goes back is refused, and exactly then is a transition refused for another reason than the state. |
| JobRepository.AsyncJobRow.MarkRunning | src/evalops/db/repositories.py:225-238 | Assigning the columns of a row is the running transition. |
| JobRepository.AsyncJobRow.MarkCompleted | src/evalops/db/repositories.py:240-253 | Assigning the columns of a row is the completed transition; a result that does not exist violates the foreign key. |
| JobRepository.AsyncJobRow.MarkFailed | src/evalops/db/repositories.py:255-266 | Assigning the columns of a row is the failed transition. |
| JobRepository.AsyncJobRepository.Row | src/evalops/db/repositories.py:219-223 | The session has one row object per job; loading one changes nothing it sees. |
| JobRepository.AsyncJobRepository.MarkRunning | src/evalops/db/repositories.py:225-238 | Unknown job, wrong state, or the transition of that row and of no other. |
| JobRepository.AsyncJobRepository.MarkCompleted | src/evalops/db/repositories.py:240-253 | Unknown job, wrong state, or the transition of that row and of no other. |
| JobRepository.AsyncJobRepository.MarkFailed | src/evalops/db/repositories.py:255-266 | Unknown job, terminal state, or the transition of that row and of no other. |
| JobRepository.MarkRunningInUow | src/evalops/db/session.py:28-39 | A unit of work commits the transition, or on an exception leaves every committed row as it was. |
| JobRepository.MarkCompletedInUow | src/evalops/db/session.py:28-39 | The same for completion. |
| JobRepository.MarkFailedInUow | src/evalops/db/session.py:28-39 | The same for failure. |
| JobRepository.AddInUow | src/evalops/db/repositories.py:211-213 | The same for adding a job; an unknown experiment or a taken id is a conflict. |
| Persistence.Session.Add | src/evalops/db/repositories.py:36-38 | An inserted row is seen by its transaction; a row that violates a unique key is refused and nothing changes. |
| Persistence.Session.Commit | src/evalops/db/session.py:28-39 | Commit adds every row of the transaction to what is committed by then, or none. |
| Persistence.InsertAllExtends | src/evalops/db/models.py:203-205 | Inserting never removes or changes a row. |
| Persistence.InsertAllKeepsKeys | src/evalops/db/models.py:176-236 | Whatever rows are inserted, every run stays filed under its id, no two runs share a run key, and every case result is that of a stored run. |
| Persistence.OutcomeInserted | src/evalops/execution_service.py:156-160 | The rows of an outcome go in together exactly when their ids are new and no run key is taken, and add exactly those keys and one result. |
| ExecutionService.ExecuteExperiment | src/evalops/execution_service.py:62-193 | Unknown experiment, already-run experiment and missing reference are refused as documented, and otherwise it fails only as the evaluation does or on a refused row; on success the gate is that of the result under the policy the experiment names, or none exactly if it names none, the result is the one the outcome determines, and exactly the rows of the evaluation were added. |
| ExecutionService.ExecuteExperimentInUow | src/evalops/execution_service.py:196-210 | The same through the unit of work: the store then holds the whole evaluation - every run of the grid, one case result each, the result - or is untouched. |
| ExecutionService.PersistsGrid | src/evalops/execution_service.py:156-160 | Against any committed store: an evaluation commits exactly when no key of the experiment's grid is taken and its ids are new. |
| ExecutionService.PersistedIsFound | src/evalops/execution_service.py:88-92 | Once persisted, the already-run check finds the experiment ever after. |
| ExecutionService.CommitsCollide | src/evalops/db/models.py:203-205 | Of two transactions that both passed the already-run check, whatever is committed in between, the second conflicts. |
| ExecutionService.GridNotEmpty | src/evalops/domain/entities.py:182-186 | An experiment has at least one run key, so two evaluations of it always collide. |
| ExecutionService.Evaluate | src/evalops/execution_service.py:114-154 | The policy the experiment names is the one that judges; the reasons for which no evaluation comes about are listed. |
| Tasks.EnqueueExperimentRun | src/evalops/worker/tasks.py:49-97 | One message goes out, with the queued row already committed, and none if the row is refused; if dispatch raises, the job is failed, with a bounded message, before the error is reported. |
| Tasks.ExecuteExperimentTask | src/evalops/worker/tasks.py:101-177 | A missing or not queued job is refused with nothing changed; otherwise the evaluation is committed whole or not at all and the job ends accordingly, its exception raised again. |
| Tasks.TaskEndsItsJob | src/evalops/worker/tasks.py:127-167 | Uninterrupted and with a clock that does not go back, a task always ends its job, completed with its result or failed with its message. |
| Protocol.StepKeeps | src/evalops/worker/tasks.py:66-167 | Every step of enqueuers, broker, workers and synchronous requests keeps the invariant. |
| ProtocolSafety.Safety | src/evalops/worker/tasks.py:66-167 | So it holds after every sequence of steps, with crashes, lost and duplicated messages. |
| ProtocolSafety.AllOrNothing | src/evalops/execution_service.py:156-160 | In every reachable state the run keys of an experiment are its whole grid and it has a result, or there is no run key and no result. |
| ReachableTables.TablesAllOrNothing | src/evalops/execution_service.py:156-160 | After every sequence of events the tables hold, of each experiment, no run and no result, or 2 x cases x repeats runs filling its grid, each with its case result, and exactly one result; the protocol's store is a view of them. |
| ReachableTables.CommitKeepsTables | src/evalops/execution_service.py:196-210 | Committing any evaluation of any registered experiment keeps that. |
| ProtocolSafety.AtMostOneResult | src/evalops/db/models.py:203-205 | At most one committed result per experiment, although several transactions may pass the already-run check. |
| ProtocolSafety.StoreGrowsWhole | src/evalops/db/session.py:28-39 | No step commits part of an evaluation. |
| ProtocolSafety.AtMostOneCompleted | src/evalops/worker/tasks.py:160-163 | At most one job of an experiment completes. |
| ProtocolSafety.CompletedLinks | src/evalops/db/repositories.py:240-253 | A completed job links a committed result of its own experiment, which it committed itself. |
| ProtocolSafety.EvaluatedOnce | src/evalops/worker/celery_app.py:10-36 | Evaluation begins at most once for a job, even under duplicated delivery. |
| ProtocolSafety.LifeCycle | src/evalops/domain/entities.py:381-419 | Every job row is valid and has been through a prefix of queued, running, completed or failed, or through queued, failed. |
| ProtocolSafety.NothingIsUndone | src/evalops/db/repositories.py:201-206 | From any moment on, committed runs, results and owners stay, histories only grow, and an ended job is never touched. |
| ProtocolSafety.FailedWithResultOnlyIfExcused | src/evalops/worker/tasks.py:143-151 | A failed job owns a committed result only if at some moment of the run its dispatch raised although the message was sent, or its worker raised although it had committed. |
| ProtocolSafety.FailedUnstartedNeverOwns | src/evalops/worker/tasks.py:77-97 | A job failed before it was started never owns a result, however the run goes on. |
| ProtocolSafety.NothingCommittedAtRest | src/evalops/worker/tasks.py:127-134 | Once a job has ended and no worker is active on it, the results it owns never change again. |
| ProtocolSafety.FailedWithResultHappens | src/evalops/worker/tasks.py:77-97 | The first way does happen: for any job of any experiment there is a run in which dispatch raises late and the job is failed while its worker commits. |
| ProtocolSafety.FailedLateHappens | src/evalops/worker/celery_app.py:59-69 | So does the second, with dispatch in order: the worker raises between its commit and its completion, as the soft time limit can. |
| ProtocolRefinement.GridsAreValid | src/evalops/domain/entities.py:182-186 | The grids of a catalogue are those the protocol assumes. |
| ProtocolRefinement.CheckRefines | src/evalops/execution_service.py:88-92 | The already-run check of the code is the protocol's. |
| ProtocolRefinement.WorkerCommitRefines | src/evalops/execution_service.py:196-210 | The commit of an evaluation has the effect of the protocol's commit step; the worker then has it committed, or raises the conflict. |
| ProtocolRefinement.RequestCommitRefines | src/evalops/execution_service.py:156-160 | So has that of a synchronous request, which it ends whether accepted or refused. |
| ProtocolRefinement.EnqueueRefines | src/evalops/worker/tasks.py:66-69 | Adding the job row has the effect of the protocol's first step. |
| ProtocolRefinement.StartRefines | src/evalops/worker/tasks.py:127-134 | The worker's first unit of work has the effect of the protocol's start step. |
| ProtocolRefinement.CompleteRefines | src/evalops/worker/tasks.py:166-167 | Its completing unit of work has the effect of the complete step. |
| ProtocolRefinement.FailRefines | src/evalops/worker/tasks.py:147-151 | Its failing unit of work has the effect of the failure step. |
| ProtocolRefinement.DispatchFailureRefines | src/evalops/worker/tasks.py:79-84 | Recording a dispatch failure has the effect of that step. |
| TaskRefinement.TaskIsRun | src/evalops/worker/tasks.py:101-177 | From any state in which a worker holds its message, a whole uninterrupted task leaves tables and job rows as a run of the protocol does: start refused; start, evaluate, commit, complete; or start, evaluate, raise, record. |
| TaskRefinement.EnqueueIsRun | src/evalops/worker/tasks.py:49-97 | So does a whole uninterrupted enqueuer: row refused; row, message; or row, dispatch raising with or without the message sent, failure recorded. |
| TaskRefinement.RequestBeginsExactly | src/evalops/execution_service.py:88-92 | A synchronous request gets past its check exactly when the experiment is registered and has no runs. |
| TaskRefinement.RequestIsRun | src/evalops/execution_service.py:62-193 | A whole uninterrupted request leaves tables and job rows as a run of the protocol does: begin, commit; or begin, end. |
| Mapping.ReadBackIsIdentity | src/evalops/db/models.py:239-244 | Children read back in any order and sorted by position are the original sequence. |
| Mapping.EvidenceRoundTrips | src/evalops/db/mapping.py:365-419 | Flattening three summaries onto one pair count loses nothing exactly when they count the same pairs, which the constructor demands. |
| Mapping.ResultReloads | src/evalops/db/mapping.py:327-362 | A stored result reads back as it was, so the gate recomputed from it gives the original report. |
| Mapping.ReportReloads | src/evalops/api/routes.py:325-353 | The report recomputed from the stored result of an evaluation is the one its response carried. |
| Mapping.CaseResultReloads | src/evalops/db/mapping.py:289-320 | A stored case result reads back as it was. |
| Mapping.ExpectedCallsReload | src/evalops/db/mapping.py:69-88 | Expected tool calls come back from their JSON column exactly when none has a blank name, which their constructor demands: an empty name is passed over, another blank one refused. |
| Mapping.DatasetReloads | src/evalops/db/mapping.py:111-155 | A stored dataset, its cases read in any order and their columns converted back, is the original with its cases in authored order, exactly under that condition. |

## Left out

- Floating point: sums, means, interpolation and comparisons are exact, so rounding, and `ceil(0.95 * n)` where the product rounds up, are not modelled.
- Median and standard deviation in `summarize`, and the `method` label of evidence: nothing in the decision reads them.
- The texts of reasons, advisories, errors and finding details: only which metrics and pairs they are about.
- Blank-string checks on names and ids other than those of jobs, column lengths and database integer widths.
- Retrieval evidence and the RAG evaluators, `ToolSuccess`, the LLM judge, calibration, trace promotion, configuration parsing: mostly facts of one function.
- Creation times, evaluator families, and the `result` and `error` of tool calls: carried along, never decided on.
- JSON columns: keys of tool arguments are strings, as JSON makes them; columns of cases that nothing in the model reads, encoding and decoding of observed tool calls and retrieval items, and rows mapped column by column without reordering (runs, versions, policies, experiments), are not modelled. What `str` and `dict` make of a name that is no text or arguments that are no mapping is a parameter.
- Foreign keys of run rows to versions and cases: the rows referred to were read in the same transaction and nothing deletes rows.
- Row-level races on one job row: each unit of work on a job row is one atomic step, although `mark_running` reads and then updates without a lock.
- A commit whose caller is told it failed although the database accepted it: for an evaluation that is the worker raising after its commit, which is modelled; for a job row it is not.
- Progress: a job whose worker died stays running, as the code has no reaper; nothing is claimed about how soon a step happens.
- HTTP, Celery, Redis and SQLAlchemy beyond unique keys, atomic units of work and acknowledgement on receipt; logging and correlation ids; the dashboard.
- Tasks.EnqueueExperimentRun: states what happens when nobody else touches the new job meanwhile; races with the worker are in `Protocol`.
- Tasks.ExecuteExperimentTask: states one uninterrupted run; crashes and races are in `Protocol`.
- ProtocolSafety.FailedWithResultOnlyIfExcused: one direction only; after either moment the job may also end completed, or be left running.
- ReachableTables.TablesAllOrNothing: run ids of different evaluations are assumed distinct, as the random ids of the code are.
- TaskRefinement.TaskIsRun: one uninterrupted task; interleaved ones are `Protocol`, unit of work by unit of work.
- Pipeline.RunEvaluation: which failures remain is stated for evaluators that label scores with their own name, as all evaluators of the repository do; for others only what a successful run means.
