/** Persisted execution: check, evaluate, then insert every row in one transaction. */
module ExecutionService {
  import opened Basics
  import opened Domain
  import opened Bootstrap
  import opened Runner
  import opened Grid
  import opened Gate
  import opened Pipeline
  import opened Persistence

  /** An experiment row with the references the service follows. */
  datatype Registered = Registered(experiment: Experiment, projectId: string, policyId: Option<string>)

  /** The entities a run reads and never writes. */
  datatype Catalogue = Catalogue(
    experiments: map<string, Registered>,
    projects: set<string>,
    datasets: map<string, Dataset>,
    versions: map<string, SystemVersion>,
    policies: map<string, ReleasePolicy>)
  {
    /** Entities are stored under their own ids and satisfy their constructors. */
    ghost predicate Valid() {
      && (forall e :: e in experiments ==> experiments[e].experiment.id == e && experiments[e].experiment.Valid())
      && (forall d :: d in datasets ==> datasets[d].id == d && datasets[d].Valid())
      && (forall v :: v in versions ==> versions[v].id == v)
    }
  }

  /** The configuration of one run: evaluators and providers as built (or the error in building
      them), the outside world, the random stream, and the id the result will get. */
  datatype Request = Request(setup: Result<seq<Evaluator>>, world: World, rng: Rng, resultId: string)

  datatype RunResponse = RunResponse(evaluation: Evaluation, evaluationResultId: string)

  /** Everything the experiment refers to is there. */
  predicate Resolved(cat: Catalogue, g: Registered) {
    && g.projectId in cat.projects
    && g.experiment.datasetId in cat.datasets
    && g.experiment.baselineVersionId in cat.versions && g.experiment.candidateVersionId in cat.versions
    && (g.policyId.Some? ==> g.policyId.value in cat.policies)
  }

  /** The gate of the response is that of its result under the policy the experiment names, ungated exactly
      when it names none; and for evaluators that label their scores with their own names, the result is
      the one the outcome determines. */
  ghost predicate Judged(cat: Catalogue, experimentId: string, req: Request, evaluation: Evaluation)
    requires cat.Valid() && experimentId in cat.experiments && req.setup.Ok?
  {
    var g := cat.experiments[experimentId];
    && (g.policyId.None? ==> Ok(evaluation.gate) == EvaluateGate(evaluation.result, None))
    && (g.policyId.Some? ==>
          && g.policyId.value in cat.policies
          && Ok(evaluation.gate) == EvaluateGate(evaluation.result, Some(cat.policies[g.policyId.value])))
    && (req.world.FreshIds() && OwnLabels(req.setup.value) ==>
          evaluation.result == FinalResult(g.experiment, evaluation.outcome, NamesOf(req.setup.value), req.rng))
  }

  /** Why no evaluation comes about: it cannot be built, preflight refuses it, a cell raises, or the policy
      names a metric that is not expected. */
  ghost predicate Fails(cat: Catalogue, experimentId: string, req: Request, e: Error)
    requires cat.Valid() && experimentId in cat.experiments && Resolved(cat, cat.experiments[experimentId])
  {
    if req.setup.Err? then e == req.setup.error
    else
      var g := cat.experiments[experimentId];
      var x := g.experiment;
      var dataset, baseline, candidate :=
        cat.datasets[x.datasetId], cat.versions[x.baselineVersionId], cat.versions[x.candidateVersionId];
      var policy := if g.policyId.Some? then Some(cat.policies[g.policyId.value]) else None;
      StopsWith(x, dataset, baseline, candidate, policy, req.world, req.setup.value, e)
  }

  /** Build what is needed and evaluate; nothing here touches the store. */
  method Evaluate(cat: Catalogue, experimentId: string, req: Request) returns (r: Result<Evaluation>)
    requires cat.Valid() && experimentId in cat.experiments && Resolved(cat, cat.experiments[experimentId])
    ensures r.Ok? ==> Evaluated(cat, experimentId, req, RunResponse(r.value, req.resultId))
    ensures r.Ok? ==> Judged(cat, experimentId, req, r.value)
    ensures r.Err? && (req.setup.Err? || (req.world.FreshIds() && OwnLabels(req.setup.value))) ==>
              Fails(cat, experimentId, req, r.error)
  {
    var g := cat.experiments[experimentId];
    var x := g.experiment;
    var policy := if g.policyId.Some? then Some(cat.policies[g.policyId.value]) else None;
    if req.setup.Err? {
      return Err(req.setup.error);
    }
    r := RunEvaluation(
      x, cat.datasets[x.datasetId], cat.versions[x.baselineVersionId], cat.versions[x.candidateVersionId], policy,
      req.world, req.setup.value, req.rng);
  }

  /** Insert the runs, then the case results, then the result. */
  method InsertEvaluation(session: Session, response: RunResponse) returns (r: Result<()>)
    requires session.View().Ok?
    modifies session`pending
    ensures r.Ok? ==> Added(session, old(session.pending), old(session.View()).value, RowsOfResponse(response))
    ensures r.Err? ==> r.error == RecordConflict
                       && InsertAll(old(session.View()).value, RowsOfResponse(response)).Err?
  {
    var o := response.evaluation.outcome;
    var before, view := session.pending, session.View().value;
    InsertAllConcat(view, RunRows(o.runs) + CaseRows(o.caseResults),
                    [ResultRow(response.evaluationResultId, response.evaluation.result)]);
    r := InsertTwo(session, RunRows(o.runs), CaseRows(o.caseResults));
    if r.Ok? {
      var last := [ResultRow(response.evaluationResultId, response.evaluation.result)];
      r := session.AddAll(last);
      AddedMore(before, view, RunRows(o.runs) + CaseRows(o.caseResults), last);
    }
  }

  method InsertTwo(session: Session, a: seq<Row>, b: seq<Row>) returns (r: Result<()>)
    requires session.View().Ok?
    modifies session`pending
    ensures r.Ok? ==> Added(session, old(session.pending), old(session.View()).value, a + b)
    ensures r.Err? ==> r.error == RecordConflict && InsertAll(old(session.View()).value, a + b).Err?
  {
    var before, view := session.pending, session.View().value;
    InsertAllConcat(view, a, b);
    r := session.AddAll(a);
    if r.Ok? {
      r := session.AddAll(b);
      AddedMore(before, view, a, b);
    }
  }

  /** These rows, and no others, have been added to the session since it saw `view`. */
  ghost predicate Added(session: Session, before: seq<Row>, view: Tables, rows: seq<Row>)
    reads session, session.db
  {
    session.pending == before + rows && session.View().Ok? && session.View() == InsertAll(view, rows)
  }

  lemma AddedMore(before: seq<Row>, view: Tables, a: seq<Row>, b: seq<Row>)
    ensures before + a + b == before + (a + b)
    ensures InsertAll(view, a).Ok? ==> InsertAll(view, a + b) == InsertAll(InsertAll(view, a).value, b)
  {
    InsertAllConcat(view, a, b);
  }

  /** `execute_experiment`: nothing is added to the session before the whole evaluation is done. */
  method ExecuteExperiment(session: Session, cat: Catalogue, experimentId: string, req: Request)
      returns (r: Result<RunResponse>)
    requires cat.Valid() && session.View().Ok?
    modifies session`pending
    ensures experimentId !in cat.experiments ==> r == Err(RecordNotFound)
    ensures experimentId in cat.experiments && HasRuns(old(session.View()).value, experimentId) ==>
        r == Err(RecordConflict)
    ensures MissingReference(cat, experimentId) && !HasRuns(old(session.View()).value, experimentId) ==>
              r == Err(PersistenceError)
    ensures r.Err? && experimentId in cat.experiments && !MissingReference(cat, experimentId)
            && !HasRuns(old(session.View()).value, experimentId)
            && (req.setup.Err? || (req.world.FreshIds() && OwnLabels(req.setup.value))) ==>
              || Fails(cat, experimentId, req, r.error)
              || Refused(cat, experimentId, req, old(session.View()).value, r.error)
    ensures r.Ok? ==>
              && Evaluated(cat, experimentId, req, r.value) && Judged(cat, experimentId, req, r.value.evaluation)
              && !HasRuns(old(session.View()).value, experimentId)
              && Added(session, old(session.pending), old(session.View()).value, RowsOfResponse(r.value))
  {
    if experimentId !in cat.experiments {
      return Err(RecordNotFound);
    }
    var g := cat.experiments[experimentId];
    if HasRuns(session.View().value, g.experiment.id) {
      return Err(RecordConflict);
    }
    if !Resolved(cat, g) {
      return Err(PersistenceError);
    }
    var evaluation := Evaluate(cat, experimentId, req);
    if evaluation.Err? {
      return Err(evaluation.error);
    }
    var response := RunResponse(evaluation.value, req.resultId);
    var added := InsertEvaluation(session, response);
    r := if added.Err? then Err(added.error) else Ok(response);
  }

  /** An evaluation came about, and a row of it was refused. */
  ghost predicate Refused(cat: Catalogue, experimentId: string, req: Request, t: Tables, e: Error)
    requires cat.Valid()
  {
    e == RecordConflict && exists response ::
      Evaluated(cat, experimentId, req, response) && InsertAll(t, RowsOfResponse(response)).Err?
  }

  /** A registered experiment refers to something that is not there. */
  predicate MissingReference(cat: Catalogue, experimentId: string) {
    experimentId in cat.experiments &&
    var g := cat.experiments[experimentId];
    || g.projectId !in cat.projects || g.experiment.datasetId !in cat.datasets
    || g.experiment.baselineVersionId !in cat.versions || g.experiment.candidateVersionId !in cat.versions
    || (g.policyId.Some? && g.policyId.value !in cat.policies)
  }

  function RowsOfResponse(response: RunResponse): seq<Row> {
    RowsOf(response.evaluation.outcome, response.evaluationResultId, response.evaluation.result)
  }

  /** The response carries an evaluation of this experiment under this configuration. */
  ghost predicate Evaluated(cat: Catalogue, experimentId: string, req: Request, response: RunResponse)
    requires cat.Valid()
  {
    && experimentId in cat.experiments && Resolved(cat, cat.experiments[experimentId]) && req.setup.Ok?
    && response.evaluationResultId == req.resultId
    && var x := cat.experiments[experimentId].experiment;
       var dataset, baseline, candidate :=
         cat.datasets[x.datasetId], cat.versions[x.baselineVersionId], cat.versions[x.candidateVersionId];
       && Preflight(x, dataset, baseline, candidate, req.world, req.setup.value)
       && Visited(x, req.world, req.setup.value, GridCells(baseline, candidate, dataset.cases, x.repeats),
                  response.evaluation.outcome.runs, response.evaluation.outcome.caseResults)
       && response.evaluation.result.experimentId == experimentId
  }

  // ----- The unit of work -----

  /** `execute_experiment_in_uow`: after it, the store holds the whole evaluation or is untouched. */
  method ExecuteExperimentInUow(db: Database, cat: Catalogue, experimentId: string, req: Request)
      returns (r: Result<RunResponse>)
    requires cat.Valid() && req.world.FreshIds() && CasesHaveRuns(db.tables)
    modifies db`tables
    ensures r.Err? ==> db.tables == old(db.tables)
    ensures r.Ok? ==>
              && Evaluated(cat, experimentId, req, r.value) && Judged(cat, experimentId, req, r.value.evaluation)
              && !HasRuns(old(db.tables), experimentId)
              && Persisted(cat, experimentId, r.value, old(db.tables), db.tables)
    ensures experimentId !in cat.experiments ==> r == Err(RecordNotFound)
    ensures experimentId in cat.experiments && HasRuns(old(db.tables), experimentId) ==> r == Err(RecordConflict)
    ensures MissingReference(cat, experimentId) && !HasRuns(old(db.tables), experimentId) ==> r == Err(PersistenceError)
    ensures r.Err? && experimentId in cat.experiments && !MissingReference(cat, experimentId)
            && !HasRuns(old(db.tables), experimentId)
            && (req.setup.Err? || OwnLabels(req.setup.value)) ==>
              Fails(cat, experimentId, req, r.error) || Refused(cat, experimentId, req, old(db.tables), r.error)
  {
    var session := new Session(db);
    r := ExecuteExperiment(session, cat, experimentId, req);
    if r.Ok? {
      assert session.pending == RowsOfResponse(r.value);
      var committed := session.Commit();
      PersistsGrid(cat, experimentId, req, r.value, old(db.tables));
    }
  }

  /** The run keys of an experiment: two versions, every case, every repeat. */
  function GridKeys(x: Experiment, dataset: Dataset): set<RunKey> {
    set v, c, k | v in {x.baselineVersionId, x.candidateVersionId} && 0 <= c < |dataset.cases| && 0 <= k < x.repeats ::
      RunKey(x.id, v, dataset.cases[c].id, k)
  }

  function GridOf(cat: Catalogue, experimentId: string): set<RunKey>
    requires experimentId in cat.experiments
  {
    var x := cat.experiments[experimentId].experiment;
    if x.datasetId in cat.datasets then GridKeys(x, cat.datasets[x.datasetId]) else {}
  }

  /** From `t` to `t'`: exactly the experiment's whole grid of runs, one case result for each, and
      one result of the experiment, were added; 2 x cases x repeats runs in all. */
  ghost predicate Persisted(cat: Catalogue, experimentId: string, response: RunResponse, t: Tables, t': Tables)
    requires experimentId in cat.experiments && Resolved(cat, cat.experiments[experimentId])
  {
    var x, o := cat.experiments[experimentId].experiment, response.evaluation.outcome;
    var grid := GridOf(cat, experimentId);
    && Extends(t, t') && CasesHaveRuns(t')
    && grid !! KeysIn(t) && KeysIn(t') == KeysIn(t) + grid
    && |o.runs| == |grid| == 2 * (|cat.datasets[x.datasetId].cases| * x.repeats) && |o.caseResults| == |o.runs|
    && (forall i :: 0 <= i < |o.runs| ==> Stored(t', o.runs[i], o.caseResults[i]))
    && IdsFiled(t, o.runs, t')
    && response.evaluationResultId !in t.results
    && t'.results == t.results[response.evaluationResultId := response.evaluation.result]
  }

  /** The key and ids of each run of a finished evaluation. */
  ghost predicate FromCells(x: Experiment, w: World, cells: seq<Cell>, o: RunOutcome) {
    && |o.runs| == |o.caseResults| == |cells|
    && forall i :: 0 <= i < |cells| ==>
         && o.runs[i].id == w.newId(i) == o.caseResults[i].runId
         && RunKeyOf(o.runs[i]) == RunKey(x.id, cells[i].version.id, cells[i].case_.id, cells[i].repeatIndex)
  }

  lemma VisitedFromCells(x: Experiment, w: World, evaluators: seq<Evaluator>, cells: seq<Cell>, o: RunOutcome)
    requires Visited(x, w, evaluators, cells, o.runs, o.caseResults)
    ensures FromCells(x, w, cells, o)
  {
    assert forall i :: 0 <= i < |cells| ==>
        CellDone(x, w, evaluators, cells[i], w.newId(i), o.runs[i], o.caseResults[i]);
  }

  lemma CellsInGrid(x: Experiment, dataset: Dataset, baseline: SystemVersion, candidate: SystemVersion, i: nat)
    requires x.Valid() && dataset.Valid() && baseline.id == x.baselineVersionId && candidate.id == x.candidateVersionId
    requires i < |GridCells(baseline, candidate, dataset.cases, x.repeats)|
    ensures var cell := GridCells(baseline, candidate, dataset.cases, x.repeats)[i];
            RunKey(x.id, cell.version.id, cell.case_.id, cell.repeatIndex) in GridKeys(x, dataset)
  {
    VersionCellsCover(baseline, dataset.cases, x.repeats);
    VersionCellsCover(candidate, dataset.cases, x.repeats);
    var b, c := VersionCells(baseline, dataset.cases, x.repeats), VersionCells(candidate, dataset.cases, x.repeats);
    var cell := if i < |b| then b[i] else c[i - |b|];
    var k :| 0 <= k < |dataset.cases| && dataset.cases[k] == cell.case_;
  }

  lemma GridInVersion(x: Experiment, dataset: Dataset, version: SystemVersion, c: nat, k: nat) returns (j: nat)
    requires dataset.Valid() && c < |dataset.cases| && k < x.repeats
    ensures var mine := VersionCells(version, dataset.cases, x.repeats);
            j < |mine| && mine[j] == Cell(version, dataset.cases[c], k)
  {
    VersionCellsCover(version, dataset.cases, x.repeats);
    var mine := VersionCells(version, dataset.cases, x.repeats);
    assert Cell(version, dataset.cases[c], k) in mine;
    j :| 0 <= j < |mine| && mine[j] == Cell(version, dataset.cases[c], k);
  }

  lemma GridInCells(
    x: Experiment, dataset: Dataset, baseline: SystemVersion, candidate: SystemVersion, key: RunKey) returns (i: nat)
    requires x.Valid() && dataset.Valid() && baseline.id == x.baselineVersionId && candidate.id == x.candidateVersionId
    requires key in GridKeys(x, dataset)
    ensures var cells := GridCells(baseline, candidate, dataset.cases, x.repeats);
            i < |cells| && key == RunKey(x.id, cells[i].version.id, cells[i].case_.id, cells[i].repeatIndex)
  {
    var v, c, k :| v in {x.baselineVersionId, x.candidateVersionId} && 0 <= c < |dataset.cases| && 0 <= k < x.repeats
                   && key == RunKey(x.id, v, dataset.cases[c].id, k);
    if v == baseline.id {
      i := GridInVersion(x, dataset, baseline, c, k);
    } else {
      var j := GridInVersion(x, dataset, candidate, c, k);
      i := |VersionCells(baseline, dataset.cases, x.repeats)| + j;
    }
  }

  lemma CellsCoverGrid(
    x: Experiment, dataset: Dataset, baseline: SystemVersion, candidate: SystemVersion, w: World, o: RunOutcome)
    requires x.Valid() && dataset.Valid() && baseline.id == x.baselineVersionId && candidate.id == x.candidateVersionId
    requires FromCells(x, w, GridCells(baseline, candidate, dataset.cases, x.repeats), o)
    ensures KeySet(o.runs) == GridKeys(x, dataset)
  {
    forall key | key in KeySet(o.runs)
      ensures key in GridKeys(x, dataset)
    {
      var i :| 0 <= i < |o.runs| && RunKeyOf(o.runs[i]) == key;
      CellsInGrid(x, dataset, baseline, candidate, i);
    }
    forall key | key in GridKeys(x, dataset)
      ensures key in KeySet(o.runs)
    {
      var i := GridInCells(x, dataset, baseline, candidate, key);
      assert RunKeyOf(o.runs[i]) == key;
    }
  }

  lemma CellsDistinct(
    x: Experiment, dataset: Dataset, baseline: SystemVersion, candidate: SystemVersion, w: World, o: RunOutcome)
    requires x.Valid() && dataset.Valid() && baseline.id == x.baselineVersionId && candidate.id == x.candidateVersionId
    requires FromCells(x, w, GridCells(baseline, candidate, dataset.cases, x.repeats), o) && w.FreshIds()
    ensures DistinctRuns(o.runs) && |o.runs| == 2 * (|dataset.cases| * x.repeats)
  {
    var cells, n := GridCells(baseline, candidate, dataset.cases, x.repeats), |dataset.cases| * x.repeats;
    GridCellKeys(baseline, candidate, dataset.cases, x.repeats);
    forall i, j | 0 <= i < j < |o.runs|
      ensures o.runs[i].id != o.runs[j].id && RunKeyOf(o.runs[i]) != RunKeyOf(o.runs[j])
    {
      if j < n {
        assert cells[i].Key() != cells[j].Key();
      } else if i >= n {
        assert cells[i - n].Key() == cells[n + (i - n)].Key() && cells[j - n].Key() == cells[n + (j - n)].Key();
        assert cells[i - n].Key() != cells[j - n].Key();
      }
    }
  }

  lemma {:induction false} KeySetSize(runs: seq<Run>)
    requires DistinctRuns(runs)
    ensures |KeySet(runs)| == |runs|
  {
    if runs != [] {
      var n := |runs| - 1;
      KeySetSize(runs[..n]);
      KeySetSnoc(runs);
      assert RunKeyOf(runs[n]) !in KeySet(runs[..n]);
    } else {
      assert KeySet(runs) == {};
    }
  }

  /** Any evaluation of the experiment inserts the same keys. */
  lemma EvaluatedKeys(cat: Catalogue, experimentId: string, req: Request, response: RunResponse)
    requires cat.Valid() && req.world.FreshIds() && Evaluated(cat, experimentId, req, response)
    ensures var x, o := cat.experiments[experimentId].experiment, response.evaluation.outcome;
            && KeySet(o.runs) == GridOf(cat, experimentId) && DistinctRuns(o.runs)
            && |o.runs| == |GridOf(cat, experimentId)| == 2 * (|cat.datasets[x.datasetId].cases| * x.repeats)
            && |o.caseResults| == |o.runs|
            && forall i :: 0 <= i < |o.runs| ==> o.caseResults[i].runId == o.runs[i].id
  {
    var x, o := cat.experiments[experimentId].experiment, response.evaluation.outcome;
    var dataset, baseline, candidate :=
      cat.datasets[x.datasetId], cat.versions[x.baselineVersionId], cat.versions[x.candidateVersionId];
    VisitedFromCells(x, req.world, req.setup.value, GridCells(baseline, candidate, dataset.cases, x.repeats), o);
    CellsCoverGrid(x, dataset, baseline, candidate, req.world, o);
    CellsDistinct(x, dataset, baseline, candidate, req.world, o);
    KeySetSize(o.runs);
  }

  /** Committing an evaluation, against any committed store: it goes in exactly when no key of the
      experiment's grid is taken and its ids are new, and then adds precisely the grid and the result. */
  lemma PersistsGrid(cat: Catalogue, experimentId: string, req: Request, response: RunResponse, t: Tables)
    requires cat.Valid() && req.world.FreshIds() && Evaluated(cat, experimentId, req, response) && CasesHaveRuns(t)
    ensures var r, o := InsertAll(t, RowsOfResponse(response)), response.evaluation.outcome;
            && (r.Ok? <==> IdSet(o.runs) !! t.runs.Keys && response.evaluationResultId !in t.results
                           && GridOf(cat, experimentId) !! KeysIn(t))
            && (r.Ok? ==> Persisted(cat, experimentId, response, t, r.value)
                          && OwnersIn(r.value) == OwnersIn(t)[response.evaluationResultId := experimentId])
  {
    var rows, o := RowsOfResponse(response), response.evaluation.outcome;
    EvaluatedKeys(cat, experimentId, req, response);
    OutcomeInserted(t, o, response.evaluationResultId, response.evaluation.result);
    if InsertAll(t, rows).Ok? {
      InsertAllExtends(t, rows);
    }
  }

  // ----- Never twice -----

  lemma GridNotEmpty(cat: Catalogue, experimentId: string)
    requires cat.Valid() && experimentId in cat.experiments && Resolved(cat, cat.experiments[experimentId])
    ensures GridOf(cat, experimentId) != {}
    ensures forall k :: k in GridOf(cat, experimentId) ==> k.experimentId == experimentId
  {
    var x := cat.experiments[experimentId].experiment;
    var dataset := cat.datasets[x.datasetId];
    assert RunKey(x.id, x.baselineVersionId, dataset.cases[0].id, 0) in GridOf(cat, experimentId);
  }

  lemma ExtendsKeys(t: Tables, t': Tables)
    requires Extends(t, t')
    ensures KeysIn(t) <= KeysIn(t')
  {
    forall k | k in KeysIn(t)
      ensures k in KeysIn(t')
    {
      var id :| id in t.runs && RunKeyOf(t.runs[id]) == k;
      assert t'.runs[id] == t.runs[id];
    }
  }

  /** Once an experiment is persisted, the already-run check finds it ever after. */
  lemma PersistedIsFound(
    cat: Catalogue, experimentId: string, response: RunResponse, t: Tables, t': Tables, later: Tables)
    requires cat.Valid() && experimentId in cat.experiments && Resolved(cat, cat.experiments[experimentId])
    requires Persisted(cat, experimentId, response, t, t') && Extends(t', later)
    ensures HasRuns(later, experimentId)
  {
    GridNotEmpty(cat, experimentId);
    ExtendsKeys(t', later);
    var k :| k in GridOf(cat, experimentId);
    assert k in KeysIn(later);
    var id :| id in later.runs && RunKeyOf(later.runs[id]) == k;
    assert later.runs[id].experimentId == experimentId;
  }

  /** Two transactions that both passed the already-run check cannot both commit: whatever else
      was committed in between, the second collides on the run keys. */
  lemma CommitsCollide(
    cat: Catalogue, experimentId: string, first: Request, one: RunResponse, second: Request, two: RunResponse,
    t: Tables, later: Tables)
    requires cat.Valid() && first.world.FreshIds() && second.world.FreshIds()
    requires Evaluated(cat, experimentId, first, one) && Evaluated(cat, experimentId, second, two)
    requires CasesHaveRuns(t) && InsertAll(t, RowsOfResponse(one)).Ok?
    requires Extends(InsertAll(t, RowsOfResponse(one)).value, later) && CasesHaveRuns(later)
    ensures InsertAll(later, RowsOfResponse(two)) == Err(RecordConflict)
  {
    PersistsGrid(cat, experimentId, first, one, t);
    PersistsGrid(cat, experimentId, second, two, later);
    GridNotEmpty(cat, experimentId);
    ExtendsKeys(InsertAll(t, RowsOfResponse(one)).value, later);
    var k :| k in GridOf(cat, experimentId);
    assert k in KeysIn(later);
  }
}
