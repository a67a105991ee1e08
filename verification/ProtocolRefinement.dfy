/** The units of work of the code are the steps of the protocol: on the committed rows, each has the
    effect of the corresponding event. */
module ProtocolRefinement {
  import opened Basics
  import opened Jobs
  import opened Persistence
  import opened JobRepository
  import opened ExecutionService
  import opened Protocol

  /** Every experiment's references exist: they are foreign keys, and nothing is deleted. */
  ghost predicate ClosedCatalogue(cat: Catalogue) {
    cat.Valid() && forall e :: e in cat.experiments ==> Resolved(cat, cat.experiments[e])
  }

  function GridsOf(cat: Catalogue): Grids {
    map e | e in cat.experiments :: GridOf(cat, e)
  }

  /** The grids of a catalogue are those the protocol assumes: a dataset has a case and an
      experiment at least one repeat, so none is empty. */
  lemma GridsAreValid(cat: Catalogue)
    requires ClosedCatalogue(cat)
    ensures ValidGrids(GridsOf(cat))
  {
    forall e | e in cat.experiments
      ensures GridOf(cat, e) != {} && forall k :: k in GridOf(cat, e) ==> k.experimentId == e
    {
      GridNotEmpty(cat, e);
    }
  }

  /** The protocol's store is a view of the tables. */
  ghost predicate Views(store: Store, t: Tables) { store.keys == KeysIn(t) && store.results == OwnersIn(t) }

  /** The committed rows of the code are the committed state of the protocol. */
  ghost predicate Represents(t: Tables, jobs: map<string, AsyncJob>, s: State) {
    && Views(s.store, t)
    && s.rows.jobs == jobs && s.rows.histories.Keys == jobs.Keys
  }

  /** The already-run check of the code is that of the protocol. */
  lemma CheckRefines(t: Tables, jobs: map<string, AsyncJob>, s: State, e: string)
    requires Represents(t, jobs, s)
    ensures HasRuns(t, e) <==> !NoRuns(s.store, e)
  {
    if id :| id in t.runs && t.runs[id].experimentId == e {
      assert RunKeyOf(t.runs[id]) in KeysIn(t);
    }
    if k :| k in s.store.keys && k.experimentId == e {
      var id :| id in t.runs && RunKeyOf(t.runs[id]) == k;
      assert t.runs[id].experimentId == e;
    }
  }

  /** Committing an evaluation whose run ids are new succeeds in the code exactly when it does in the
      protocol, and adds the same keys and the same result. */
  lemma CommitRefines(
    cat: Catalogue, e: string, req: Request, response: RunResponse, t: Tables, jobs: map<string, AsyncJob>, s: State,
    owner: Owner)
    requires ClosedCatalogue(cat) && req.world.FreshIds() && Evaluated(cat, e, req, response)
    requires CasesHaveRuns(t) && Represents(t, jobs, s)
    requires IdSet(response.evaluation.outcome.runs) !! t.runs.Keys
    ensures var r, result := InsertAll(t, RowsOfResponse(response)), response.evaluationResultId;
            && (r.Ok? <==> CanCommit(GridsOf(cat), s.store, e, result))
            && (r.Ok? ==>
                  var store := Commit(GridsOf(cat), s.store, e, result, owner);
                  store.keys == KeysIn(r.value) && store.results == OwnersIn(r.value))
  {
    PersistsGrid(cat, e, req, response, t);
  }

  /** A worker's commit of its evaluation: it then has it committed, or raises the conflict. */
  lemma WorkerCommitRefines(
    cat: Catalogue, req: Request, response: RunResponse, t: Tables, jobs: map<string, AsyncJob>, s: State, w: nat)
    requires ClosedCatalogue(cat) && req.world.FreshIds() && CasesHaveRuns(t) && Represents(t, jobs, s)
    requires w in s.workers && s.workers[w].Evaluating? && s.workers[w].job in jobs
    requires Evaluated(cat, jobs[s.workers[w].job].experimentId, req, response)
    requires IdSet(response.evaluation.outcome.runs) !! t.runs.Keys
    ensures var r, j, result := InsertAll(t, RowsOfResponse(response)), s.workers[w].job, response.evaluationResultId;
            var s' := Step(GridsOf(cat), s, CommitEvaluation(w, result));
            && Represents(if r.Ok? then r.value else t, jobs, s')
            && s'.workers == s.workers[w := if r.Ok? then Committed(j, result) else Broken(j)]
  {
    var j := s.workers[w].job;
    CommitRefines(cat, jobs[j].experimentId, req, response, t, jobs, s, ByJob(j));
    CommitStepEffect(GridsOf(cat), s, w, response.evaluationResultId);
  }

  lemma CommitStepEffect(g: Grids, s: State, w: nat, result: string)
    requires w in s.workers && s.workers[w].Evaluating? && s.workers[w].job in s.rows.jobs
    ensures var j, s' := s.workers[w].job, Step(g, s, CommitEvaluation(w, result));
            var e := s.rows.jobs[j].experimentId;
            var accepted := CanCommit(g, s.store, e, result);
            && s'.rows == s.rows
            && s'.store == (if accepted then Commit(g, s.store, e, result, ByJob(j)) else s.store)
            && s'.workers == s.workers[w := if accepted then Committed(j, result) else Broken(j)]
  {
  }

  /** A synchronous request's commit of its evaluation: accepted or refused, it ends the request. */
  lemma RequestCommitRefines(
    cat: Catalogue, req: Request, response: RunResponse, t: Tables, jobs: map<string, AsyncJob>, s: State, n: nat)
    requires ClosedCatalogue(cat) && req.world.FreshIds() && CasesHaveRuns(t) && Represents(t, jobs, s)
    requires n in s.requests && Evaluated(cat, s.requests[n], req, response)
    requires IdSet(response.evaluation.outcome.runs) !! t.runs.Keys
    ensures var r, s' := InsertAll(t, RowsOfResponse(response)),
                         Step(GridsOf(cat), s, RequestCommits(n, response.evaluationResultId));
            && Represents(if r.Ok? then r.value else t, jobs, s')
            && s'.requests == s.requests - {n}
  {
    CommitRefines(cat, s.requests[n], req, response, t, jobs, s, ByRequest(n));
    RequestStepEffect(GridsOf(cat), s, n, response.evaluationResultId);
  }

  lemma RequestStepEffect(g: Grids, s: State, n: nat, result: string)
    requires n in s.requests
    ensures var e, s' := s.requests[n], Step(g, s, RequestCommits(n, result));
            && s'.rows == s.rows && s'.requests == s.requests - {n}
            && s'.store ==
                 if CanCommit(g, s.store, e, result) then Commit(g, s.store, e, result, ByRequest(n)) else s.store
  {
  }

  function Updated(jobs: map<string, AsyncJob>, id: string, r: Result<AsyncJob>): map<string, AsyncJob> {
    if r.Ok? then jobs[id := r.value] else jobs
  }

  lemma EnqueueRefines(g: Grids, t: Tables, jobs: map<string, AsyncJob>, s: State, j: string, e: string)
    requires Represents(t, jobs, s) && NewJob(j, e, s.now).Valid()
    ensures Represents(t, Updated(jobs, j, AddedAnswer(jobs, g.Keys, NewJob(j, e, s.now))), Step(g, s, Enqueue(j, e)))
  {
  }

  lemma StartRefines(g: Grids, t: Tables, jobs: map<string, AsyncJob>, s: State, w: nat, taskId: Option<string>)
    requires Represents(t, jobs, s) && w in s.workers && s.workers[w].Received?
    ensures var j := s.workers[w].job;
            Represents(t, Updated(jobs, j, RunningAnswer(jobs, j, taskId, s.now)), Step(g, s, Start(w, taskId)))
  {
  }

  lemma CompleteRefines(g: Grids, t: Tables, jobs: map<string, AsyncJob>, s: State, w: nat)
    requires Represents(t, jobs, s) && w in s.workers && s.workers[w].Committed?
    requires s.workers[w].result in s.store.results
    ensures var j := s.workers[w].job;
            Represents(t, Updated(jobs, j, CompletedAnswer(jobs, t.results.Keys, j, s.workers[w].result, s.now)),
              Step(g, s, Complete(w)))
  {
    assert s.workers[w].result in t.results;
  }

  lemma FailRefines(g: Grids, t: Tables, jobs: map<string, AsyncJob>, s: State, w: nat, text: string)
    requires Represents(t, jobs, s) && w in s.workers && s.workers[w].Broken?
    ensures var j := s.workers[w].job;
            Represents(t, Updated(jobs, j, FailedAnswer(jobs, j, text, s.now)), Step(g, s, RecordFailure(w, text)))
  {
  }

  lemma DispatchFailureRefines(g: Grids, t: Tables, jobs: map<string, AsyncJob>, s: State, j: string, text: string)
    requires Represents(t, jobs, s) && j in s.enqueuers && s.enqueuers[j].Failing?
    ensures Represents(
              t, Updated(jobs, j, FailedAnswer(jobs, j, text, s.now)), Step(g, s, RecordDispatchFailure(j, text)))
  {
  }
}
