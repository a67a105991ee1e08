/** The background task and its enqueuer, as the sequence of units of work each of them is. */
module Tasks {
  import opened Basics
  import opened Jobs
  import opened Persistence
  import opened JobRepository
  import opened ExecutionService

  // ----- Enqueuing -----

  /** A message handed to the broker, and the job rows committed at that moment. */
  datatype Dispatch = Dispatch(job: string, committed: map<string, AsyncJob>)

  /** The broker, as the enqueuer meets it: it takes messages, and may raise. */
  class Broker {
    const table: JobTable
    var taken: seq<Dispatch>

    constructor (table: JobTable)
      ensures this.table == table && taken == []
    {
      this.table := table;
      taken := [];
    }

    /** `delay`: hand over a message; whether it raises is up to the broker. */
    method Delay(job: string, outcome: Option<string>) returns (raised: Option<string>)
      modifies this`taken
      ensures taken == old(taken) + [Dispatch(job, table.committed)] && raised == outcome
    {
      taken := taken + [Dispatch(job, table.committed)];
      raised := outcome;
    }
  }

  /** How `enqueue_experiment_run` leaves the job rows. */
  predicate EnqueueDone(
    jobs: map<string, AsyncJob>, experiments: set<string>, job: AsyncJob, dispatch: Option<string>, later: int,
    r: Result<AsyncJob>, jobs': map<string, AsyncJob>)
  {
    if AddedAnswer(jobs, experiments, job).Err? then r == Err(RecordConflict) && jobs' == jobs
    else if dispatch.None? then r == Ok(job) && jobs' == jobs[job.id := job]
    else r == Err(DispatchError) && jobs' == jobs[job.id := WithError(job, dispatch.value, later)]
  }

  /** `enqueue_experiment_run`, when nobody else touches the new job meanwhile. The one message goes out
      after the queued row is committed, and only then. Dispatch returns (`None`) or raises with a
      message, and then the job is failed before the error is reported. */
  method EnqueueExperimentRun(table: JobTable, broker: Broker, job: AsyncJob, dispatch: Option<string>, later: int)
      returns (r: Result<AsyncJob>)
    requires broker.table == table && Keyed(table.committed) && job.Valid() && job.status == Queued
    modifies table`committed, broker`taken
    ensures Keyed(table.committed)
    ensures EnqueueDone(old(table.committed), table.experiments, job, dispatch, later, r, table.committed)
    ensures r == Err(DispatchError) ==> job.id in table.committed && table.committed[job.id].Valid()
    ensures broker.taken == old(broker.taken) +
              if r == Err(RecordConflict) then [] else [Dispatch(job.id, old(table.committed)[job.id := job])]
  {
    var added := AddInUow(table, job);
    if added.Err? {
      return Err(added.error);
    }
    var raised := broker.Delay(job.id, dispatch);
    if raised.None? {
      return Ok(job);
    }
    FailingFromQueue(job, raised.value, later);
    var failed := MarkFailedInUow(table, job.id, raised.value, later);
    r := Err(DispatchError);
  }

  lemma FailingFromQueue(job: AsyncJob, text: string, now: int)
    requires job.Valid() && job.status == Queued
    ensures MarkFailed(job, text, now) == Ok(WithError(job, text, now)) && WithError(job, text, now).Valid()
  {
    var error := BoundError(text);
  }

  // ----- The task -----

  /** How the last unit of work of a task leaves the job row, given how the evaluation went. */
  function LastTransition(
    running: AsyncJob, evaluation: Result<RunResponse>, describe: Error -> string, now: int): Result<AsyncJob>
  {
    match evaluation
    case Ok(response) => MarkCompleted(running, response.evaluationResultId, now)
    case Err(e) => MarkFailed(running, describe(e), now)
  }

  /** How evaluating an experiment leaves the tables: with the whole evaluation, or as they were. */
  ghost predicate EvaluationDone(
    cat: Catalogue, e: string, req: Request, evaluation: Result<RunResponse>, t: Tables, t': Tables)
    requires cat.Valid()
  {
    match evaluation
    case Err(_) => t' == t
    case Ok(response) =>
      && Evaluated(cat, e, req, response) && Judged(cat, e, req, response.evaluation)
      && !HasRuns(t, e) && Persisted(cat, e, response, t, t')
  }

  /** How a task leaves the job rows and the tables, given how the evaluation went. */
  ghost predicate TaskDone(
    cat: Catalogue, jobs: map<string, AsyncJob>, t: Tables, jobId: string, taskId: Option<string>, req: Request,
    describe: Error -> string, started: int, ended: int, r: Result<RunResponse>, evaluation: Result<RunResponse>,
    jobs': map<string, AsyncJob>, t': Tables)
    requires cat.Valid()
  {
    var start := RunningAnswer(jobs, jobId, taskId, started);
    if start.Err? then r == Err(start.error) && jobs' == jobs && t' == t
    else
      var last := LastTransition(start.value, evaluation, describe, ended);
      && EvaluationDone(cat, start.value.experimentId, req, evaluation, t, t')
      && r == (if last.Ok? then evaluation else Err(last.error))
      && jobs' == jobs[jobId := if last.Ok? then last.value else start.value]
  }

  /** What is left to do once the job is running: evaluate in one transaction, then end the job. */
  method RunStarted(
    db: Database, table: JobTable, cat: Catalogue, running: AsyncJob, req: Request, describe: Error -> string,
    ended: int
  ) returns (r: Result<RunResponse>, ghost evaluation: Result<RunResponse>)
    requires table.db == db && cat.Valid() && req.world.FreshIds() && CasesHaveRuns(db.tables) && Keyed(table.committed)
    requires running.id in table.committed && table.committed[running.id] == running && running.status == Running
    modifies db`tables, table`committed
    ensures Keyed(table.committed)
    ensures EvaluationDone(cat, running.experimentId, req, evaluation, old(db.tables), db.tables)
    ensures var last := LastTransition(running, evaluation, describe, ended);
            && r == (if last.Ok? then evaluation else Err(last.error))
            && table.committed
               == if last.Ok? then old(table.committed)[running.id := last.value] else old(table.committed)
  {
    var outcome := ExecuteExperimentInUow(db, cat, running.experimentId, req);
    evaluation := outcome;
    if outcome.Err? {
      var failed := MarkFailedInUow(table, running.id, describe(outcome.error), ended);
      r := if failed.Ok? then outcome else Err(failed.error);
    } else {
      assert outcome.value.evaluationResultId in db.tables.results;
      var completed := MarkCompletedInUow(table, running.id, outcome.value.evaluationResultId, ended);
      r := if completed.Ok? then outcome else Err(completed.error);
    }
  }

  /** `execute_experiment_task`, uninterrupted. A job that is missing or not queued is refused before
      anything happens; otherwise the job runs, the evaluation is committed whole or not at all, and
      the job ends accordingly. The exception of a failed evaluation is raised again. */
  method ExecuteExperimentTask(
    db: Database, table: JobTable, cat: Catalogue, jobId: string, taskId: Option<string>, req: Request,
    describe: Error -> string, started: int, ended: int
  ) returns (r: Result<RunResponse>, ghost evaluation: Result<RunResponse>)
    requires table.db == db && cat.Valid() && req.world.FreshIds() && CasesHaveRuns(db.tables) && Keyed(table.committed)
    modifies db`tables, table`committed
    ensures Keyed(table.committed)
    ensures TaskDone(cat, old(table.committed), old(db.tables), jobId, taskId, req, describe, started, ended,
                     r, evaluation, table.committed, db.tables)
  {
    var start := MarkRunningInUow(table, jobId, taskId, started);
    if start.Err? {
      return Err(start.error), Err(start.error);
    }
    r, evaluation := RunStarted(db, table, cat, start.value, req, describe, ended);
  }

  /** With a clock that does not go back, an uninterrupted task always ends its job: completed and
      linked to the result, or failed with a bounded message. */
  lemma TaskEndsItsJob(
    job: AsyncJob, taskId: Option<string>, evaluation: Result<RunResponse>, describe: Error -> string, started: int,
    ended: int)
    requires job.Valid() && job.status == Queued && job.createdAt <= started <= ended
    ensures var start := MarkRunning(job, taskId, started);
            && start.Ok?
            && var last := LastTransition(start.value, evaluation, describe, ended);
               && last.Ok? && last.value.Valid() && last.value.id == job.id
               && (if evaluation.Ok?
                   then last.value.status == Completed
                        && last.value.evaluationResultId == Some(evaluation.value.evaluationResultId)
                   else last.value.status == Failed && last.value.evaluationResultId == None
                        && last.value.error == Some(BoundError(describe(evaluation.error))))
  {
    TransitionsTotal(job, taskId, "", "", started);
    var running := MarkRunning(job, taskId, started).value;
    var resultId := if evaluation.Ok? then evaluation.value.evaluationResultId else "";
    TransitionsTotal(running, None, resultId, if evaluation.Err? then describe(evaluation.error) else "", ended);
  }
}
