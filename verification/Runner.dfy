/** The evaluation runner: one run and one case result for every (version, case, repeat). */
module Runner {
  import opened Basics
  import opened Ordering
  import opened Domain

  datatype SystemVersion = SystemVersion(id: string, provider: string)

  datatype Response = Response(text: string, usage: UsageMetrics, toolCalls: seq<ToolCall>)

  /** What one provider call comes to: an answer, a provider error, or any other exception. */
  datatype Completion = Answer(response: Response) | ProviderFailed(message: string) | Raised(error: Error)

  datatype Evaluator = Evaluator(name: string, evaluate: (Run, DatasetCase) -> Result<EvaluatorScore>)

  /** Everything the runner cannot see into. Calls are told apart by (version, case, repeat), so
      the answers may differ from call to call; ids are never handed out twice. */
  datatype World = World(
    providers: set<string>,
    render: (string, string) -> Result<string>,
    complete: (string, string, nat) -> Completion,
    newId: nat -> string)
  {
    ghost predicate FreshIds() {
      forall i, j :: i != j ==> newId(i) != newId(j)
    }
  }

  // ----- The grid -----

  /** One cell of the grid: a version answering a case for the k-th time. */
  datatype Cell = Cell(version: SystemVersion, case_: DatasetCase, repeatIndex: nat) {
    function Key(): PairKey { PairKey(case_.id, repeatIndex) }
  }

  function CaseCells(v: SystemVersion, c: DatasetCase, repeats: nat): (cells: seq<Cell>)
    ensures |cells| == repeats
    ensures forall k :: 0 <= k < repeats ==> cells[k] == Cell(v, c, k)
  {
    seq(repeats, k requires 0 <= k < repeats => Cell(v, c, k))
  }

  function VersionCells(v: SystemVersion, cases: seq<DatasetCase>, repeats: nat): seq<Cell> {
    if cases == [] then []
    else VersionCells(v, cases[..|cases| - 1], repeats) + CaseCells(v, cases[|cases| - 1], repeats)
  }

  /** Execution order: baseline then candidate; case order; repeat order. */
  function GridCells(
    baseline: SystemVersion, candidate: SystemVersion, cases: seq<DatasetCase>, repeats: nat): seq<Cell>
  {
    VersionCells(baseline, cases, repeats) + VersionCells(candidate, cases, repeats)
  }

  /** A version visits every (case, repeat) exactly once. */
  lemma {:induction false} VersionCellsCover(v: SystemVersion, cases: seq<DatasetCase>, repeats: nat)
    requires forall i, j :: 0 <= i < j < |cases| ==> cases[i].id != cases[j].id
    ensures var cells := VersionCells(v, cases, repeats);
            && |cells| == |cases| * repeats
            && (forall i :: 0 <= i < |cells| ==>
                  cells[i].version == v && cells[i].case_ in cases && cells[i].repeatIndex < repeats)
            && (forall i, k: nat :: 0 <= i < |cases| && k < repeats ==> Cell(v, cases[i], k) in cells)
            && (forall i, j :: 0 <= i < j < |cells| ==> cells[i].Key() != cells[j].Key())
  {
    if cases != [] {
      var n := |cases| - 1;
      var c := cases[n];
      VersionCellsCover(v, cases[..n], repeats);
      var before, last, cells := VersionCells(v, cases[..n], repeats), CaseCells(v, c, repeats),
        VersionCells(v, cases, repeats);
      assert cells == before + last;
      forall i, k: nat | 0 <= i < |cases| && k < repeats
        ensures Cell(v, cases[i], k) in cells
      {
        if i == n {
          assert last[k] == Cell(v, c, k);
        } else {
          assert cases[i] == cases[..n][i];
          assert Cell(v, cases[..n][i], k) in before;
        }
      }
      forall i, j | 0 <= i < j < |cells|
        ensures cells[i].Key() != cells[j].Key()
      {
        if i < |before| <= j {
          assert cells[i] == before[i] && before[i].case_ in cases[..n];
          assert cells[j] == last[j - |before|];
        }
      }
    }
  }

  // ----- One cell -----

  /** The recorded text of a provider error is never blank. */
  function ErrorText(message: string): (text: string)
    ensures !Blank(text)
  {
    StripFacts(message);
    var cleaned := Strip(message);
    if cleaned != "" then cleaned
    else
      assert !IsSpace("ProviderError"[0]);
      "ProviderError"
  }

  /** `_execute`: a provider error becomes a failed run; any other exception propagates. */
  function Execute(x: Experiment, w: World, cell: Cell, id: string): Result<Run> {
    match w.complete(cell.version.id, cell.case_.id, cell.repeatIndex)
    case Answer(r) =>
      Ok(Run(id, x.id, cell.version.id, cell.case_.id, cell.repeatIndex, r.text, r.usage, None, r.toolCalls))
    case ProviderFailed(message) =>
      Ok(Run(id, x.id, cell.version.id, cell.case_.id, cell.repeatIndex, "", ZERO_USAGE, Some(ErrorText(message)), []))
    case Raised(e) => Err(e)
  }

  /** The scores of a successful run, in evaluator order, or the first exception. */
  function Scores(run: Run, c: DatasetCase, evaluators: seq<Evaluator>): Result<seq<EvaluatorScore>> {
    if evaluators == [] then Ok([])
    else
      var before :- Scores(run, c, evaluators[..|evaluators| - 1]);
      var s :- evaluators[|evaluators| - 1].evaluate(run, c);
      Ok(before + [s])
  }

  predicate NoRepeatedEvaluator(scores: seq<EvaluatorScore>) {
    forall i, j :: 0 <= i < j < |scores| ==> scores[i].evaluator != scores[j].evaluator
  }

  /** `_score`: a failed run has no scores; building the case result rejects a repeated evaluator. */
  function ScoreRun(run: Run, c: DatasetCase, evaluators: seq<Evaluator>): Result<CaseResult> {
    if run.error.Some? then Ok(Scorecard(run.id, []))
    else
      var scores :- Scores(run, c, evaluators);
      if NoRepeatedEvaluator(scores) then Ok(Scorecard(run.id, scores)) else Err(DomainValidationError)
  }

  /** What visiting one cell yields: rendering the prompt, calling the provider, scoring. */
  function Visit(
    x: Experiment, w: World, evaluators: seq<Evaluator>, cell: Cell, id: string): Result<(Run, CaseResult)>
  {
    var _ :- w.render(cell.version.id, cell.case_.id);
    var run :- Execute(x, w, cell, id);
    var scored :- ScoreRun(run, cell.case_, evaluators);
    Ok((run, scored))
  }

  // ----- What a cell comes to, in terms of the outside world alone -----

  /** The run of a cell whose call was answered, or failed at the provider. */
  ghost predicate RunIs(x: Experiment, w: World, cell: Cell, id: string, run: Run) {
    && run.id == id && run.experimentId == x.id
    && run.versionId == cell.version.id && run.caseId == cell.case_.id && run.repeatIndex == cell.repeatIndex
    && match w.complete(cell.version.id, cell.case_.id, cell.repeatIndex)
       case Answer(r) =>
         run.error.None? && run.output == r.text && run.usage == r.usage && run.toolCalls == r.toolCalls
       case ProviderFailed(message) =>
         && run.error == Some(if Blank(message) then "ProviderError" else Strip(message))
         && run.output == "" && run.usage == ZERO_USAGE && run.toolCalls == []
       case Raised(_) => false
  }

  /** The scores of that run: what every evaluator returned for it, or none if the provider failed. */
  ghost predicate ScoresAre(w: World, evaluators: seq<Evaluator>, cell: Cell, run: Run, scores: seq<EvaluatorScore>) {
    if w.complete(cell.version.id, cell.case_.id, cell.repeatIndex).Answer?
    then AllScored(evaluators, run, cell.case_, scores)
    else scores == []
  }

  /** The cell yields this run and this case result. */
  ghost predicate CellDone(
    x: Experiment, w: World, evaluators: seq<Evaluator>, cell: Cell, id: string, run: Run, scored: CaseResult)
  {
    && w.render(cell.version.id, cell.case_.id).Ok? && RunIs(x, w, cell, id, run)
    && scored.runId == id && ScoresAre(w, evaluators, cell, run, scored.scores)
  }

  /** Evaluator `k` is the first to raise, with `e`. */
  ghost predicate EvaluatorRaises(evaluators: seq<Evaluator>, run: Run, c: DatasetCase, k: int, e: Error) {
    && 0 <= k < |evaluators| && evaluators[k].evaluate(run, c) == Err(e)
    && forall j :: 0 <= j < k ==> evaluators[j].evaluate(run, c).Ok?
  }

  /** All evaluators answer, and two of them with the same label. */
  ghost predicate LabelsClash(evaluators: seq<Evaluator>, run: Run, c: DatasetCase) {
    && (forall k :: 0 <= k < |evaluators| ==> evaluators[k].evaluate(run, c).Ok?)
    && exists i, j :: 0 <= i < j < |evaluators|
         && evaluators[i].evaluate(run, c).value.evaluator == evaluators[j].evaluate(run, c).value.evaluator
  }

  /** The cell raises `e`: its template, its provider with something other than a provider error, an
      evaluator, or the case result of clashing labels. */
  ghost predicate CellRaises(x: Experiment, w: World, evaluators: seq<Evaluator>, cell: Cell, id: string, e: Error) {
    || w.render(cell.version.id, cell.case_.id) == Err(e)
    || w.complete(cell.version.id, cell.case_.id, cell.repeatIndex) == Raised(e)
    || exists run ::
         && RunIs(x, w, cell, id, run) && run.error.None?
         && (SomeRaises(evaluators, run, cell.case_, e)
             || (e == DomainValidationError && LabelsClash(evaluators, run, cell.case_)))
  }

  ghost predicate AllScored(evaluators: seq<Evaluator>, run: Run, c: DatasetCase, scores: seq<EvaluatorScore>) {
    && |scores| == |evaluators|
    && forall k :: 0 <= k < |evaluators| ==> evaluators[k].evaluate(run, c) == Ok(scores[k])
  }

  ghost predicate SomeRaises(evaluators: seq<Evaluator>, run: Run, c: DatasetCase, e: Error) {
    exists k :: EvaluatorRaises(evaluators, run, c, k, e)
  }

  lemma LastEvaluator(
    evaluators: seq<Evaluator>, run: Run, c: DatasetCase, scores: seq<EvaluatorScore>, last: Result<EvaluatorScore>)
    requires evaluators != [] && AllScored(evaluators[..|evaluators| - 1], run, c, scores)
    requires last == evaluators[|evaluators| - 1].evaluate(run, c)
    ensures last.Ok? ==> AllScored(evaluators, run, c, scores + [last.value])
    ensures last.Err? ==> SomeRaises(evaluators, run, c, last.error)
  {
    var n := |evaluators| - 1;
    assert forall k :: 0 <= k < n ==> evaluators[..n][k] == evaluators[k];
    if last.Err? {
      assert forall k :: 0 <= k < n ==> evaluators[k].evaluate(run, c) == Ok(scores[k]);
      assert EvaluatorRaises(evaluators, run, c, n, last.error);
    }
  }

  lemma EarlierRaises(evaluators: seq<Evaluator>, more: seq<Evaluator>, run: Run, c: DatasetCase, e: Error)
    requires evaluators <= more && SomeRaises(evaluators, run, c, e)
    ensures SomeRaises(more, run, c, e)
  {
    var k :| EvaluatorRaises(evaluators, run, c, k, e);
    assert forall j :: 0 <= j < |evaluators| ==> evaluators[j] == more[j];
    assert EvaluatorRaises(more, run, c, k, e);
  }

  lemma {:induction false} ScoresMeaning(run: Run, c: DatasetCase, evaluators: seq<Evaluator>)
    ensures match Scores(run, c, evaluators)
            case Ok(scores) => AllScored(evaluators, run, c, scores)
            case Err(e) => SomeRaises(evaluators, run, c, e)
  {
    if evaluators != [] {
      var n := |evaluators| - 1;
      ScoresMeaning(run, c, evaluators[..n]);
      match Scores(run, c, evaluators[..n])
      case Ok(scores) => LastEvaluator(evaluators, run, c, scores, evaluators[n].evaluate(run, c));
      case Err(e) => EarlierRaises(evaluators[..n], evaluators, run, c, e);
    }
  }

  /** Visiting a cell yields exactly that, or raises exactly so. */
  lemma VisitMeaning(x: Experiment, w: World, evaluators: seq<Evaluator>, cell: Cell, id: string)
    ensures match Visit(x, w, evaluators, cell, id)
            case Ok((run, scored)) => CellDone(x, w, evaluators, cell, id, run, scored)
            case Err(e) => CellRaises(x, w, evaluators, cell, id, e)
  {
    var run := Execute(x, w, cell, id);
    if w.render(cell.version.id, cell.case_.id).Ok? && run.Ok? {
      if w.complete(cell.version.id, cell.case_.id, cell.repeatIndex).ProviderFailed? {
        StripFacts(w.complete(cell.version.id, cell.case_.id, cell.repeatIndex).message);
      }
      assert RunIs(x, w, cell, id, run.value);
      ScoresMeaning(run.value, cell.case_, evaluators);
    }
  }

  // ----- The whole run -----

  /** What is checked before anything runs. */
  ghost predicate Preflight(
    x: Experiment, dataset: Dataset, baseline: SystemVersion, candidate: SystemVersion, w: World,
    evaluators: seq<Evaluator>)
  {
    && dataset.id == x.datasetId
    && baseline.id == x.baselineVersionId
    && candidate.id == x.candidateVersionId
    && baseline.provider in w.providers && candidate.provider in w.providers
    && forall i, j :: 0 <= i < j < |evaluators| ==> evaluators[i].name != evaluators[j].name
  }

  /** The first cells have been visited: run `i` and its case result are those of cell `i`. */
  ghost predicate Visited(
    x: Experiment, w: World, evaluators: seq<Evaluator>, cells: seq<Cell>, runs: seq<Run>, results: seq<CaseResult>)
  {
    && |runs| == |results| == |cells|
    && forall i :: 0 <= i < |cells| ==> CellDone(x, w, evaluators, cells[i], w.newId(i), runs[i], results[i])
  }

  ghost predicate CellCompletes(x: Experiment, w: World, evaluators: seq<Evaluator>, cell: Cell, id: string) {
    exists run, scored :: CellDone(x, w, evaluators, cell, id, run, scored)
  }

  /** Cell `n` raised `e`, every earlier one having been visited. */
  ghost predicate FailsAt(x: Experiment, w: World, evaluators: seq<Evaluator>, cells: seq<Cell>, n: int, e: Error) {
    && 0 <= n < |cells|
    && CellRaises(x, w, evaluators, cells[n], w.newId(n), e)
    && forall i :: 0 <= i < n ==> CellCompletes(x, w, evaluators, cells[i], w.newId(i))
  }

  ghost predicate FirstFailure(x: Experiment, w: World, evaluators: seq<Evaluator>, cells: seq<Cell>, e: Error) {
    exists n :: FailsAt(x, w, evaluators, cells, n, e)
  }

  lemma FailureExtends(x: Experiment, w: World, evaluators: seq<Evaluator>, cells: seq<Cell>, more: seq<Cell>, e: Error)
    requires FirstFailure(x, w, evaluators, cells, e) && cells <= more
    ensures FirstFailure(x, w, evaluators, more, e)
  {
    var n :| FailsAt(x, w, evaluators, cells, n, e);
    assert forall i :: 0 <= i < |cells| ==> more[i] == cells[i];
    assert FailsAt(x, w, evaluators, more, n, e);
  }

  lemma VisitNext(
    x: Experiment, w: World, evaluators: seq<Evaluator>, cells: seq<Cell>, runs: seq<Run>, results: seq<CaseResult>,
    cell: Cell)
    requires Visited(x, w, evaluators, cells, runs, results)
    ensures match Visit(x, w, evaluators, cell, w.newId(|runs|))
            case Ok((run, scored)) => Visited(x, w, evaluators, cells + [cell], runs + [run], results + [scored])
            case Err(e) => FirstFailure(x, w, evaluators, cells + [cell], e)
  {
    var all := cells + [cell];
    VisitMeaning(x, w, evaluators, cell, w.newId(|runs|));
    assert forall i :: 0 <= i < |cells| ==> all[i] == cells[i];
    assert all[|cells|] == cell;
    if Visit(x, w, evaluators, cell, w.newId(|runs|)).Err? {
      forall i | 0 <= i < |cells|
        ensures CellCompletes(x, w, evaluators, all[i], w.newId(i))
      {
        assert CellDone(x, w, evaluators, cells[i], w.newId(i), runs[i], results[i]);
      }
      assert FailsAt(x, w, evaluators, all, |cells|, Visit(x, w, evaluators, cell, w.newId(|runs|)).error);
    }
  }

  lemma {:induction false} VersionCellsPrefix(v: SystemVersion, cases: seq<DatasetCase>, n: nat, repeats: nat)
    requires n <= |cases|
    ensures VersionCells(v, cases[..n], repeats) <= VersionCells(v, cases, repeats)
  {
    if n < |cases| {
      VersionCellsPrefix(v, cases[..|cases| - 1], n, repeats);
      assert cases[..|cases| - 1][..n] == cases[..n];
    } else {
      assert cases[..n] == cases;
    }
  }

  /** The innermost loop: all repeats of one case, whose prompt has rendered. */
  method RunRepeats(
    x: Experiment, w: World, evaluators: seq<Evaluator>, v: SystemVersion, c: DatasetCase,
    ghost done: seq<Cell>, runs0: seq<Run>, results0: seq<CaseResult>
  ) returns (runs: seq<Run>, results: seq<CaseResult>, failure: Option<Error>)
    requires x.repeats >= 1 && w.render(v.id, c.id).Ok?
    requires Visited(x, w, evaluators, done, runs0, results0)
    ensures failure.None? ==> Visited(x, w, evaluators, done + CaseCells(v, c, x.repeats), runs, results)
    ensures failure.Some? ==> FirstFailure(x, w, evaluators, done + CaseCells(v, c, x.repeats), failure.value)
  {
    runs, results, failure := runs0, results0, None;
    ghost var all := CaseCells(v, c, x.repeats);
    assert done + all[..0] == done;
    for k := 0 to x.repeats
      invariant Visited(x, w, evaluators, done + all[..k], runs, results)
    {
      var cell := Cell(v, c, k);
      ghost var next := done + all[..k] + [cell];
      assert next == done + all[..k + 1] <= done + all;
      VisitNext(x, w, evaluators, done + all[..k], runs, results, cell);
      var run := Execute(x, w, cell, w.newId(|runs|));
      if run.Err? {
        FailureExtends(x, w, evaluators, next, done + all, run.error);
        return runs, results, Some(run.error);
      }
      var scored := ScoreRun(run.value, c, evaluators);
      if scored.Err? {
        FailureExtends(x, w, evaluators, next, done + all, scored.error);
        return runs, results, Some(scored.error);
      }
      runs, results := runs + [run.value], results + [scored.value];
    }
    assert all[..x.repeats] == all;
  }

  /** The loop over cases, for one version. */
  method RunVersion(
    x: Experiment, w: World, evaluators: seq<Evaluator>, v: SystemVersion, cases: seq<DatasetCase>,
    ghost done: seq<Cell>, runs0: seq<Run>, results0: seq<CaseResult>
  ) returns (runs: seq<Run>, results: seq<CaseResult>, failure: Option<Error>)
    requires x.repeats >= 1
    requires Visited(x, w, evaluators, done, runs0, results0)
    ensures failure.None? ==> Visited(x, w, evaluators, done + VersionCells(v, cases, x.repeats), runs, results)
    ensures failure.Some? ==> FirstFailure(x, w, evaluators, done + VersionCells(v, cases, x.repeats), failure.value)
  {
    runs, results, failure := runs0, results0, None;
    assert done + VersionCells(v, cases[..0], x.repeats) == done;
    for ci := 0 to |cases|
      invariant failure.None?
      invariant Visited(x, w, evaluators, done + VersionCells(v, cases[..ci], x.repeats), runs, results)
    {
      var c := cases[ci];
      ghost var before := done + VersionCells(v, cases[..ci], x.repeats);
      ghost var after := before + CaseCells(v, c, x.repeats);
      assert cases[..ci + 1][..ci] == cases[..ci];
      assert after == done + VersionCells(v, cases[..ci + 1], x.repeats);
      VersionCellsPrefix(v, cases, ci + 1, x.repeats);
      var prompt := w.render(v.id, c.id);
      if prompt.Err? {
        VisitNext(x, w, evaluators, before, runs, results, Cell(v, c, 0));
        FailureExtends(
          x, w, evaluators, before + [Cell(v, c, 0)], done + VersionCells(v, cases, x.repeats), prompt.error);
        return runs, results, Some(prompt.error);
      }
      runs, results, failure := RunRepeats(x, w, evaluators, v, c, before, runs, results);
      if failure.Some? {
        FailureExtends(x, w, evaluators, after, done + VersionCells(v, cases, x.repeats), failure.value);
        return;
      }
    }
    assert cases[..|cases|] == cases;
  }

  /** `_preflight`: ids, then providers, then evaluator names. */
  method RefusedByPreflight(
    x: Experiment, dataset: Dataset, baseline: SystemVersion, candidate: SystemVersion, w: World,
    evaluators: seq<Evaluator>
  ) returns (refused: bool)
    ensures refused <==> !Preflight(x, dataset, baseline, candidate, w, evaluators)
  {
    if dataset.id != x.datasetId || baseline.id != x.baselineVersionId || candidate.id != x.candidateVersionId {
      return true;
    }
    var missing := {baseline.provider, candidate.provider} - w.providers;
    assert baseline.provider in missing <==> baseline.provider !in w.providers;
    assert candidate.provider in missing <==> candidate.provider !in w.providers;
    if missing != {} {
      return true;
    }
    for j := 0 to |evaluators|
      invariant forall i, k :: 0 <= i < k < j ==> evaluators[i].name != evaluators[k].name
    {
      for i := 0 to j
        invariant forall k :: 0 <= k < i ==> evaluators[k].name != evaluators[j].name
      {
        if evaluators[i].name == evaluators[j].name {
          return true;
        }
      }
    }
    refused := false;
  }

  /** `run_experiment`: on success the grid, cell by cell; otherwise the first exception raised. */
  method RunExperiment(
    x: Experiment, dataset: Dataset, baseline: SystemVersion, candidate: SystemVersion, w: World,
    evaluators: seq<Evaluator>
  ) returns (r: Result<RunOutcome>)
    requires x.Valid()
    ensures var cells := GridCells(baseline, candidate, dataset.cases, x.repeats);
            && (r.Ok? ==> Preflight(x, dataset, baseline, candidate, w, evaluators)
                          && Visited(x, w, evaluators, cells, r.value.runs, r.value.caseResults))
            && (r.Err? ==> if Preflight(x, dataset, baseline, candidate, w, evaluators)
                           then FirstFailure(x, w, evaluators, cells, r.error) else r.error == ConfigError)
  {
    var refused := RefusedByPreflight(x, dataset, baseline, candidate, w, evaluators);
    if refused {
      return Err(ConfigError);
    }
    var runs: seq<Run>, results: seq<CaseResult> := [], [];
    var versions := [baseline, candidate];
    ghost var cells := GridCells(baseline, candidate, dataset.cases, x.repeats);
    ghost var done: seq<Cell> := [];
    for i := 0 to 2
      invariant Visited(x, w, evaluators, done, runs, results)
      invariant done
             == if i == 0 then [] else if i == 1 then VersionCells(baseline, dataset.cases, x.repeats) else cells
    {
      var failure;
      runs, results, failure := RunVersion(x, w, evaluators, versions[i], dataset.cases, done, runs, results);
      done := done + VersionCells(versions[i], dataset.cases, x.repeats);
      if failure.Some? {
        FailureExtends(x, w, evaluators, done, cells, failure.value);
        return Err(failure.value);
      }
    }
    r := Ok(RunOutcome(runs, results));
  }
}
