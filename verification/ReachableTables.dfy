/** The evaluation tables themselves, through every sequence of events: not only which keys are
    committed, but every run with its case result, and how many. */
module ReachableTables {
  import opened Basics
  import opened Jobs
  import opened Domain
  import opened Runner
  import opened Persistence
  import opened ExecutionService
  import opened Protocol
  import opened ProtocolRefinement

  // ----- What the tables hold of one experiment -----

  function RunIds(t: Tables, e: string): set<string> {
    set id | id in t.runs && t.runs[id].experimentId == e
  }

  function ResultIds(t: Tables, e: string): set<string> {
    set id | id in t.results && t.results[id].experimentId == e
  }

  /** The run keys of an experiment. */
  function RunKeysFor(t: Tables, e: string): set<RunKey> {
    set id | id in RunIds(t, e) :: RunKeyOf(t.runs[id])
  }

  /** The size of an experiment's grid. */
  function GridSize(cat: Catalogue, e: string): nat
    requires ClosedCatalogue(cat) && e in cat.experiments
  {
    var x := cat.experiments[e].experiment;
    2 * (|cat.datasets[x.datasetId].cases| * x.repeats)
  }

  /** No run and no result; or 2 x cases x repeats runs, filling the whole grid, and one result. */
  ghost predicate WholeOrNothing(cat: Catalogue, t: Tables, e: string)
    requires ClosedCatalogue(cat) && e in cat.experiments
  {
    || (RunIds(t, e) == {} && ResultIds(t, e) == {})
    || (|RunIds(t, e)| == GridSize(cat, e) && RunKeysFor(t, e) == GridOf(cat, e) && |ResultIds(t, e)| == 1)
  }

  /** Every run has its case result, and every case result its run. */
  ghost predicate EveryRunScored(t: Tables) {
    && t.caseResults.Keys == t.runs.Keys
    && forall id :: id in t.runs ==> t.runs[id].id == id == t.caseResults[id].runId
  }

  ghost predicate TablesInv(cat: Catalogue, t: Tables)
    requires ClosedCatalogue(cat)
  {
    EveryRunScored(t) && forall e :: e in cat.experiments ==> WholeOrNothing(cat, t, e)
  }

  // ----- Committing an evaluation keeps it -----

  /** The runs of an evaluation carry its experiment. */
  lemma RunsOfExperiment(cat: Catalogue, e: string, req: Request, response: RunResponse)
    requires cat.Valid() && req.world.FreshIds() && Evaluated(cat, e, req, response)
    ensures var runs := response.evaluation.outcome.runs;
            forall i :: 0 <= i < |runs| ==> runs[i].experimentId == e
  {
    var runs := response.evaluation.outcome.runs;
    EvaluatedKeys(cat, e, req, response);
    GridNotEmpty(cat, e);
    forall i | 0 <= i < |runs|
      ensures runs[i].experimentId == e
    {
      assert RunKeyOf(runs[i]) in KeySet(runs);
    }
  }

  /** From `t` to `t'`: these runs of experiment `e`, each with its case result, and one result of `e`. */
  ghost predicate Gained(t: Tables, t': Tables, e: string, o: RunOutcome, resultId: string, result: EvaluationResult) {
    && Extends(t, t') && IdsFiled(t, o.runs, t') && IdSet(o.runs) !! t.runs.Keys
    && |o.caseResults| == |o.runs| && DistinctRuns(o.runs)
    && (forall i :: 0 <= i < |o.runs| ==>
          && o.runs[i].experimentId == e && o.caseResults[i].runId == o.runs[i].id
          && Stored(t', o.runs[i], o.caseResults[i]))
    && resultId !in t.results && result.experimentId == e && t'.results == t.results[resultId := result]
  }

  lemma CommitGains(cat: Catalogue, e: string, req: Request, response: RunResponse, t: Tables)
    requires cat.Valid() && req.world.FreshIds() && Evaluated(cat, e, req, response) && CasesHaveRuns(t)
    requires InsertAll(t, RowsOfResponse(response)).Ok?
    ensures var o := response.evaluation.outcome;
            Gained(t, InsertAll(t, RowsOfResponse(response)).value, e, o,
                   response.evaluationResultId, response.evaluation.result)
  {
    EvaluatedKeys(cat, e, req, response);
    RunsOfExperiment(cat, e, req, response);
    PersistsGrid(cat, e, req, response, t);
  }

  lemma GainedScored(t: Tables, t': Tables, e: string, o: RunOutcome, resultId: string, result: EvaluationResult)
    requires EveryRunScored(t) && Gained(t, t', e, o, resultId, result)
    ensures EveryRunScored(t')
  {
    forall id | id in t'.runs
      ensures id in t'.caseResults && t'.runs[id].id == id == t'.caseResults[id].runId
    {
      if id in t.runs {
        assert t'.runs[id] == t.runs[id] && t'.caseResults[id] == t.caseResults[id];
      } else {
        var i :| 0 <= i < |o.runs| && o.runs[i].id == id;
        assert Stored(t', o.runs[i], o.caseResults[i]);
      }
    }
  }

  lemma GainedRunIds(t: Tables, t': Tables, e: string, o: RunOutcome, resultId: string, result: EvaluationResult)
    requires Gained(t, t', e, o, resultId, result)
    ensures RunIds(t', e) == RunIds(t, e) + IdSet(o.runs)
    ensures forall e' :: e' != e ==> RunIds(t', e') == RunIds(t, e')
  {
    forall id, e'
      ensures id in RunIds(t', e') <==> id in RunIds(t, e') || (e' == e && id in IdSet(o.runs))
    {
      if id in IdSet(o.runs) {
        var i :| 0 <= i < |o.runs| && o.runs[i].id == id;
        assert Stored(t', o.runs[i], o.caseResults[i]);
      }
    }
    assert RunIds(t', e) == RunIds(t, e) + IdSet(o.runs);
    forall e' | e' != e
      ensures RunIds(t', e') == RunIds(t, e')
    {
    }
  }

  lemma GainedResultIds(t: Tables, t': Tables, e: string, o: RunOutcome, resultId: string, result: EvaluationResult)
    requires Gained(t, t', e, o, resultId, result)
    ensures ResultIds(t', e) == ResultIds(t, e) + {resultId}
    ensures forall e' :: e' != e ==> ResultIds(t', e') == ResultIds(t, e')
  {
  }

  lemma {:induction false} IdSetSize(runs: seq<Run>)
    requires DistinctRuns(runs)
    ensures |IdSet(runs)| == |runs|
  {
    if runs == [] {
      assert IdSet(runs) == {};
    } else {
      var n := |runs| - 1;
      IdSetSize(runs[..n]);
      KeySetSnoc(runs);
      assert runs[n].id !in IdSet(runs[..n]);
    }
  }

  /** The keys of an experiment that had none are those of the runs it gained. */
  lemma GainedKeys(t: Tables, t': Tables, e: string, o: RunOutcome, resultId: string, result: EvaluationResult)
    requires Gained(t, t', e, o, resultId, result) && RunIds(t, e) == {}
    ensures RunKeysFor(t', e) == KeySet(o.runs)
  {
    GainedRunIds(t, t', e, o, resultId, result);
    forall k
      ensures k in RunKeysFor(t', e) <==> k in KeySet(o.runs)
    {
      if id :| id in RunIds(t', e) && RunKeyOf(t'.runs[id]) == k {
        var i :| 0 <= i < |o.runs| && o.runs[i].id == id;
        assert Stored(t', o.runs[i], o.caseResults[i]);
      }
      if i :| 0 <= i < |o.runs| && RunKeyOf(o.runs[i]) == k {
        assert Stored(t', o.runs[i], o.caseResults[i]) && o.runs[i].id in RunIds(t', e);
      }
    }
  }

  /** What an experiment whose grid is still free has: nothing. */
  lemma FreeGridIsEmpty(cat: Catalogue, t: Tables, e: string)
    requires ClosedCatalogue(cat) && e in cat.experiments && WholeOrNothing(cat, t, e) && GridOf(cat, e) !! KeysIn(t)
    ensures RunIds(t, e) == {} && ResultIds(t, e) == {}
  {
    GridNotEmpty(cat, e);
    assert RunKeysFor(t, e) <= KeysIn(t);
    var k :| k in GridOf(cat, e);
    assert k !in RunKeysFor(t, e);
  }

  lemma SameIdsSameVerdict(cat: Catalogue, t: Tables, t': Tables, e: string)
    requires ClosedCatalogue(cat) && e in cat.experiments && WholeOrNothing(cat, t, e) && Extends(t, t')
    requires RunIds(t', e) == RunIds(t, e) && ResultIds(t', e) == ResultIds(t, e)
    ensures WholeOrNothing(cat, t', e)
  {
    assert forall id :: id in RunIds(t, e) ==> t'.runs[id] == t.runs[id];
    assert RunKeysFor(t', e) == RunKeysFor(t, e);
  }

  /** Committing any evaluation of any registered experiment keeps the tables whole. */
  lemma CommitKeepsTables(cat: Catalogue, e: string, req: Request, response: RunResponse, t: Tables)
    requires ClosedCatalogue(cat) && req.world.FreshIds() && Evaluated(cat, e, req, response) && TablesInv(cat, t)
    requires InsertAll(t, RowsOfResponse(response)).Ok?
    ensures TablesInv(cat, InsertAll(t, RowsOfResponse(response)).value)
  {
    var t', o, id, result := InsertAll(t, RowsOfResponse(response)).value, response.evaluation.outcome,
                             response.evaluationResultId, response.evaluation.result;
    CommitGains(cat, e, req, response, t);
    GainedScored(t, t', e, o, id, result);
    GainedRunIds(t, t', e, o, id, result);
    GainedResultIds(t, t', e, o, id, result);
    forall e' | e' in cat.experiments
      ensures WholeOrNothing(cat, t', e')
    {
      if e' == e {
        PersistsGrid(cat, e, req, response, t);
        FreeGridIsEmpty(cat, t, e);
        WholeAfterGain(cat, e, req, response, t, t');
      } else {
        SameIdsSameVerdict(cat, t, t', e');
      }
    }
  }

  lemma WholeAfterGain(cat: Catalogue, e: string, req: Request, response: RunResponse, t: Tables, t': Tables)
    requires ClosedCatalogue(cat) && req.world.FreshIds() && Evaluated(cat, e, req, response)
    requires Gained(t, t', e, response.evaluation.outcome, response.evaluationResultId, response.evaluation.result)
    requires RunIds(t, e) == {} && ResultIds(t, e) == {}
    ensures WholeOrNothing(cat, t', e)
  {
    var o, id, result := response.evaluation.outcome, response.evaluationResultId, response.evaluation.result;
    EvaluatedKeys(cat, e, req, response);
    GainedFromNothing(t, t', e, o, id, result);
  }

  lemma GainedFromNothing(t: Tables, t': Tables, e: string, o: RunOutcome, resultId: string, result: EvaluationResult)
    requires Gained(t, t', e, o, resultId, result) && RunIds(t, e) == {} && ResultIds(t, e) == {}
    ensures |RunIds(t', e)| == |o.runs| && RunKeysFor(t', e) == KeySet(o.runs) && |ResultIds(t', e)| == 1
  {
    GainedRunIds(t, t', e, o, resultId, result);
    GainedResultIds(t, t', e, o, resultId, result);
    GainedKeys(t, t', e, o, resultId, result);
    IdSetSize(o.runs);
    assert RunIds(t', e) == IdSet(o.runs) && ResultIds(t', e) == {resultId};
  }

  // ----- Every sequence of events -----

  /** What the code inserts when an evaluation of `e` that will be called `result` commits. */
  ghost predicate InsertsEvaluation(cat: Catalogue, e: string, result: string, t: Tables, t': Tables)
    requires ClosedCatalogue(cat)
  {
    exists req: Request, response: RunResponse ::
      && Evaluated(cat, e, req, response) && req.world.FreshIds() && response.evaluationResultId == result
      && IdSet(response.evaluation.outcome.runs) !! t.runs.Keys
      && t' == (if InsertAll(t, RowsOfResponse(response)).Ok? then InsertAll(t, RowsOfResponse(response)).value else t)
  }

  datatype Attempt = Attempt(experimentId: string, resultId: string, owner: Owner)

  /** The commit of an evaluation that an event attempts, if it does. */
  function Attempted(s: State, event: Event): Option<Attempt> {
    match event
    case CommitEvaluation(w, result) =>
      if w in s.workers && s.workers[w].Evaluating? && s.workers[w].job in s.rows.jobs
      then Some(Attempt(s.rows.jobs[s.workers[w].job].experimentId, result, ByJob(s.workers[w].job))) else None
    case RequestCommits(n, result) =>
      if n in s.requests then Some(Attempt(s.requests[n], result, ByRequest(n))) else None
    case _ => None
  }

  /** What one event of the protocol does to the tables of the code. */
  ghost predicate TablesStep(cat: Catalogue, s: State, event: Event, t: Tables, t': Tables)
    requires ClosedCatalogue(cat)
  {
    match Attempted(s, event)
    case Some(a) => InsertsEvaluation(cat, a.experimentId, a.resultId, t, t')
    case None => t' == t
  }

  /** The tables at each moment of a run. */
  ghost predicate TablesRun(cat: Catalogue, events: seq<Event>, tables: seq<Tables>)
    requires ClosedCatalogue(cat)
  {
    && |tables| == |events| + 1
    && tables[0] == Tables(map[], map[], map[])
    && forall i :: 0 <= i < |events| ==>
         TablesStep(cat, Protocol.Run(GridsOf(cat), events[..i]), events[i], tables[i], tables[i + 1])
  }

  /** The store after an attempt to commit. */
  function AfterAttempt(g: Grids, store: Store, a: Attempt): Store {
    if CanCommit(g, store, a.experimentId, a.resultId)
    then Commit(g, store, a.experimentId, a.resultId, a.owner) else store
  }

  lemma EvaluationViews(cat: Catalogue, req: Request, response: RunResponse, t: Tables, store: Store, a: Attempt)
    requires ClosedCatalogue(cat) && EveryRunScored(t) && Views(store, t)
    requires Evaluated(cat, a.experimentId, req, response) && req.world.FreshIds()
    requires response.evaluationResultId == a.resultId && IdSet(response.evaluation.outcome.runs) !! t.runs.Keys
    ensures var r := InsertAll(t, RowsOfResponse(response));
            Views(AfterAttempt(GridsOf(cat), store, a), if r.Ok? then r.value else t)
  {
    PersistsGrid(cat, a.experimentId, req, response, t);
  }

  lemma AttemptViews(cat: Catalogue, t: Tables, t': Tables, store: Store, a: Attempt)
    requires ClosedCatalogue(cat) && TablesInv(cat, t) && Views(store, t)
    requires InsertsEvaluation(cat, a.experimentId, a.resultId, t, t')
    ensures TablesInv(cat, t') && Views(AfterAttempt(GridsOf(cat), store, a), t')
  {
    var req: Request, response: RunResponse :|
      && Evaluated(cat, a.experimentId, req, response) && req.world.FreshIds()
      && response.evaluationResultId == a.resultId && IdSet(response.evaluation.outcome.runs) !! t.runs.Keys
      && t' == (if InsertAll(t, RowsOfResponse(response)).Ok? then InsertAll(t, RowsOfResponse(response)).value else t);
    EvaluationViews(cat, req, response, t, store, a);
    if InsertAll(t, RowsOfResponse(response)).Ok? {
      CommitKeepsTables(cat, a.experimentId, req, response, t);
    }
  }

  lemma AttemptEffect(g: Grids, s: State, event: Event)
    requires Attempted(s, event).Some?
    ensures Step(g, s, event).store == AfterAttempt(g, s.store, Attempted(s, event).value)
  {
  }

  lemma NoCommitNoEffect(g: Grids, s: State, event: Event)
    requires Attempted(s, event).None?
    ensures Step(g, s, event).store == s.store
  {
    if !event.CommitEvaluation? && !event.RequestCommits? {
      OtherStepsSpareTheStore(g, s, event);
    }
  }

  /** One event keeps the tables whole, and the store of the protocol a view of them. */
  lemma TablesStepKeeps(cat: Catalogue, s: State, event: Event, t: Tables, t': Tables)
    requires ClosedCatalogue(cat) && TablesInv(cat, t) && Views(s.store, t) && TablesStep(cat, s, event, t, t')
    ensures TablesInv(cat, t') && Views(Step(GridsOf(cat), s, event).store, t')
  {
    if Attempted(s, event).Some? {
      AttemptEffect(GridsOf(cat), s, event);
      AttemptViews(cat, t, t', s.store, Attempted(s, event).value);
    } else {
      NoCommitNoEffect(GridsOf(cat), s, event);
    }
  }

  lemma NothingYet(cat: Catalogue)
    requires ClosedCatalogue(cat)
    ensures var t := Tables(map[], map[], map[]); TablesInv(cat, t) && Views(INITIAL.store, t)
  {
    var t := Tables(map[], map[], map[]);
    assert KeysIn(t) == {} && OwnersIn(t) == map[];
    forall e | e in cat.experiments
      ensures WholeOrNothing(cat, t, e)
    {
      assert RunIds(t, e) == {} && ResultIds(t, e) == {};
    }
  }

  /** After every sequence of events, whatever raced or died: of every experiment the tables hold no run
      and no result, or all 2 x cases x repeats runs of its grid, each with its case result, and exactly
      one result; and the store of the protocol is a view of them. */
  lemma {:induction false} TablesAllOrNothing(cat: Catalogue, events: seq<Event>, tables: seq<Tables>)
    requires ClosedCatalogue(cat) && TablesRun(cat, events, tables)
    ensures TablesInv(cat, tables[|events|]) && Views(Protocol.Run(GridsOf(cat), events).store, tables[|events|])
  {
    if events == [] {
      NothingYet(cat);
    } else {
      var n := |events| - 1;
      EarlierTables(cat, events, tables);
      TablesAllOrNothing(cat, events[..n], tables[..n + 1]);
      TablesStepKeeps(cat, Protocol.Run(GridsOf(cat), events[..n]), events[n], tables[n], tables[n + 1]);
    }
  }

  lemma EarlierTables(cat: Catalogue, events: seq<Event>, tables: seq<Tables>)
    requires ClosedCatalogue(cat) && TablesRun(cat, events, tables) && events != []
    ensures var n := |events| - 1; TablesRun(cat, events[..n], tables[..n + 1])
  {
    var n := |events| - 1;
    forall i | 0 <= i < n
      ensures TablesStep(
                cat, Protocol.Run(GridsOf(cat), events[..n][..i]), events[..n][i],
                tables[..n + 1][i], tables[..n + 1][i + 1])
    {
      assert events[..n][..i] == events[..i];
    }
  }
}
