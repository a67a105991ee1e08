/** Job rows, updated in place inside a session and committed, or rolled back, by a unit of work. */
module JobRepository {
  import opened Basics
  import opened Jobs
  import opened Persistence

  /** The committed job rows, and the experiments and results their foreign keys refer to. */
  class JobTable {
    const experiments: set<string>
    const db: Database
    var committed: map<string, AsyncJob>

    constructor (experiments: set<string>, db: Database)
      ensures this.experiments == experiments && this.db == db && committed == map[]
    {
      this.experiments := experiments;
      this.db := db;
      committed := map[];
    }
  }

  /** A row object, whose columns the repository assigns. */
  class AsyncJobRow {
    const id: string
    const experimentId: string
    const createdAt: int
    var status: JobStatus
    var celeryTaskId: Option<string>
    var evaluationResultId: Option<string>
    var error: Option<string>
    var startedAt: Option<int>
    var completedAt: Option<int>

    constructor (job: AsyncJob)
      ensures Value() == job
    {
      id, experimentId, createdAt := job.id, job.experimentId, job.createdAt;
      status, celeryTaskId, evaluationResultId := job.status, job.celeryTaskId, job.evaluationResultId;
      error, startedAt, completedAt := job.error, job.startedAt, job.completedAt;
    }

    function Value(): AsyncJob
      reads this
    {
      AsyncJob(id, experimentId, status, celeryTaskId, evaluationResultId, error, createdAt, startedAt, completedAt)
    }

    /** Assign the columns of one transition and read the row back as an entity, which checks it. */
    method MarkRunning(taskId: Option<string>, now: int) returns (r: Result<AsyncJob>)
      modifies this
      ensures r == Jobs.MarkRunning(old(Value()), taskId, now)
      ensures r.Ok? ==> Value() == r.value
    {
      if status != Queued {
        return Err(RecordConflict);
      }
      status := Running;
      startedAt := Some(now);
      if taskId.Some? {
        celeryTaskId := taskId;
      }
      r := Checked(Value());
    }

    method MarkCompleted(results: set<string>, resultId: string, now: int) returns (r: Result<AsyncJob>)
      modifies this
      ensures r == Completion(old(Value()), results, resultId, now)
      ensures r.Ok? ==> Value() == r.value
    {
      if status != Running {
        return Err(RecordConflict);
      }
      status := Completed;
      evaluationResultId := Some(resultId);
      error := None;
      completedAt := Some(now);
      if resultId !in results {
        return Err(RecordConflict);
      }
      r := Checked(Value());
    }

    method MarkFailed(text: string, now: int) returns (r: Result<AsyncJob>)
      modifies this
      ensures r == Jobs.MarkFailed(old(Value()), text, now)
      ensures r.Ok? ==> Value() == r.value
    {
      if status.Terminal() {
        return Err(RecordConflict);
      }
      status := Failed;
      error := Some(BoundError(text));
      evaluationResultId := None;
      completedAt := Some(now);
      r := Checked(Value());
    }
  }

  /** Completion links a result; one that does not exist violates the foreign key. */
  function Completion(job: AsyncJob, results: set<string>, resultId: string, now: int): Result<AsyncJob> {
    if job.status == Running && resultId !in results then Err(RecordConflict) else MarkCompleted(job, resultId, now)
  }

  // ----- What each call answers, given the rows it sees -----

  function Found(jobs: map<string, AsyncJob>, id: string): Result<AsyncJob> {
    if id in jobs then Ok(jobs[id]) else Err(RecordNotFound)
  }

  function RunningAnswer(jobs: map<string, AsyncJob>, id: string, taskId: Option<string>, now: int): Result<AsyncJob> {
    var job :- Found(jobs, id);
    MarkRunning(job, taskId, now)
  }

  function CompletedAnswer(
    jobs: map<string, AsyncJob>, results: set<string>, id: string, resultId: string, now: int): Result<AsyncJob>
  {
    var job :- Found(jobs, id);
    Completion(job, results, resultId, now)
  }

  function FailedAnswer(jobs: map<string, AsyncJob>, id: string, text: string, now: int): Result<AsyncJob> {
    var job :- Found(jobs, id);
    MarkFailed(job, text, now)
  }

  function AddedAnswer(jobs: map<string, AsyncJob>, experiments: set<string>, job: AsyncJob): Result<AsyncJob> {
    if job.id in jobs || job.experimentId !in experiments then Err(RecordConflict) else Ok(job)
  }

  /** Rows are filed under their own ids. */
  ghost predicate Keyed(jobs: map<string, AsyncJob>) {
    forall id :: id in jobs ==> jobs[id].id == id
  }

  lemma OverlaySet<K, V>(under: map<K, V>, over: map<K, V>, k: K, v: V)
    ensures under + over[k := v] == (under + over)[k := v]
  {
  }

  lemma OverlaySame<K, V>(under: map<K, V>, over: map<K, V>, k: K)
    requires k in under && k !in over
    ensures under + over[k := under[k]] == under + over
  {
  }

  // ----- The repository -----

  /** One session's view of the job rows: those it has loaded, over the committed ones. */
  class AsyncJobRepository {
    const table: JobTable
    var rows: map<string, AsyncJobRow>

    constructor (table: JobTable)
      ensures this.table == table && rows == map[] && Valid() && View() == table.committed
    {
      this.table := table;
      rows := map[];
    }

    ghost predicate Valid()
      reads this, rows.Values
    {
      forall id :: id in rows ==> rows[id].id == id
    }

    /** The rows this session has loaded or added, as it has left them. */
    function Loaded(): map<string, AsyncJob>
      reads this, rows.Values
    {
      map id | id in rows :: rows[id].Value()
    }

    /** The job rows as this session sees them. */
    function View(): map<string, AsyncJob>
      reads this, table, rows.Values
    {
      table.committed + Loaded()
    }

    /** Load a committed row into the session. */
    method Load(id: string) returns (row: AsyncJobRow)
      requires Valid() && Keyed(table.committed) && id !in rows && id in table.committed
      modifies this`rows
      ensures fresh(row) && rows == old(rows)[id := row] && row.id == id
      ensures row.Value() == table.committed[id] && View() == old(View())
    {
      ghost var loaded := Loaded();
      row := new AsyncJobRow(table.committed[id]);
      rows := rows[id := row];
      assert Loaded() == loaded[id := table.committed[id]];
      OverlaySame(table.committed, loaded, id);
    }

    /** `_row`: the session's one row object for a job. */
    method Row(id: string) returns (r: Option<AsyncJobRow>)
      requires Valid() && Keyed(table.committed)
      modifies this`rows
      ensures Valid() && View() == old(View())
      ensures r.Some? <==> id in old(View())
      ensures r.Some? ==> id in rows && rows[id] == r.value && r.value.Value() == old(View())[id]
      ensures forall i :: i in rows ==> (i in old(rows) && rows[i] == old(rows[i])) || fresh(rows[i])
    {
      if id in rows {
        return Some(rows[id]);
      }
      if id !in table.committed {
        return None;
      }
      var row := Load(id);
      r := Some(row);
    }

    method MarkRunning(id: string, taskId: Option<string>, now: int) returns (r: Result<AsyncJob>)
      requires Valid() && Keyed(table.committed)
      modifies this`rows, rows.Values
      ensures r == RunningAnswer(old(View()), id, taskId, now)
      ensures r.Ok? ==> Valid() && View() == old(View())[id := r.value]
    {
      var found := Row(id);
      if found.None? {
        return Err(RecordNotFound);
      }
      label before:
      r := found.value.MarkRunning(taskId, now);
      RowAssigned@before(id);
    }

    method MarkCompleted(id: string, resultId: string, now: int) returns (r: Result<AsyncJob>)
      requires Valid() && Keyed(table.committed)
      modifies this`rows, rows.Values
      ensures r == CompletedAnswer(old(View()), table.db.tables.results.Keys, id, resultId, now)
      ensures r.Ok? ==> Valid() && View() == old(View())[id := r.value]
    {
      var found := Row(id);
      if found.None? {
        return Err(RecordNotFound);
      }
      label before:
      r := found.value.MarkCompleted(table.db.tables.results.Keys, resultId, now);
      RowAssigned@before(id);
    }

    method MarkFailed(id: string, text: string, now: int) returns (r: Result<AsyncJob>)
      requires Valid() && Keyed(table.committed)
      modifies this`rows, rows.Values
      ensures r == FailedAnswer(old(View()), id, text, now)
      ensures r.Ok? ==> Valid() && View() == old(View())[id := r.value]
    {
      var found := Row(id);
      if found.None? {
        return Err(RecordNotFound);
      }
      label before:
      r := found.value.MarkFailed(text, now);
      RowAssigned@before(id);
    }

    /** Assigning columns of one row object changes the view at that id alone. */
    twostate lemma RowAssigned(id: string)
      requires old(Valid()) && old(id in rows) && rows == old(rows) && table.committed == old(table.committed)
      requires forall i :: i in rows && i != id ==> unchanged(rows[i])
      ensures Valid() && View() == old(View())[id := rows[id].Value()]
    {
      assert Loaded() == old(Loaded())[id := rows[id].Value()];
      OverlaySet(table.committed, old(Loaded()), id, rows[id].Value());
    }

    method Add(job: AsyncJob) returns (r: Result<AsyncJob>)
      requires Valid() && Keyed(table.committed)
      modifies this`rows
      ensures r == AddedAnswer(old(View()), table.experiments, job)
      ensures r.Ok? ==> Valid() && View() == old(View())[job.id := job]
    {
      if job.id in rows || job.id in table.committed || job.experimentId !in table.experiments {
        return Err(RecordConflict);
      }
      ghost var loaded := Loaded();
      var row := new AsyncJobRow(job);
      rows := rows[job.id := row];
      assert Loaded() == loaded[job.id := job];
      OverlaySet(table.committed, loaded, job.id, job);
      r := Ok(job);
    }

    method Commit()
      requires Valid()
      modifies table`committed
      ensures table.committed == old(View())
    {
      table.committed := View();
    }
  }

  // ----- One unit of work per transition: committed if it succeeds, rolled back if it raises -----

  method AddInUow(table: JobTable, job: AsyncJob) returns (r: Result<AsyncJob>)
    requires Keyed(table.committed)
    modifies table`committed
    ensures r == AddedAnswer(old(table.committed), table.experiments, job)
    ensures table.committed == if r.Ok? then old(table.committed)[job.id := job] else old(table.committed)
    ensures Keyed(table.committed)
  {
    var jobs := new AsyncJobRepository(table);
    r := jobs.Add(job);
    if r.Ok? {
      jobs.Commit();
    }
  }

  method MarkRunningInUow(table: JobTable, id: string, taskId: Option<string>, now: int) returns (r: Result<AsyncJob>)
    requires Keyed(table.committed)
    modifies table`committed
    ensures r == RunningAnswer(old(table.committed), id, taskId, now)
    ensures table.committed == if r.Ok? then old(table.committed)[id := r.value] else old(table.committed)
    ensures Keyed(table.committed)
  {
    var jobs := new AsyncJobRepository(table);
    r := jobs.MarkRunning(id, taskId, now);
    if r.Ok? {
      jobs.Commit();
    }
  }

  method MarkCompletedInUow(table: JobTable, id: string, resultId: string, now: int) returns (r: Result<AsyncJob>)
    requires Keyed(table.committed)
    modifies table`committed
    ensures r == CompletedAnswer(old(table.committed), table.db.tables.results.Keys, id, resultId, now)
    ensures table.committed == if r.Ok? then old(table.committed)[id := r.value] else old(table.committed)
    ensures Keyed(table.committed)
  {
    var jobs := new AsyncJobRepository(table);
    r := jobs.MarkCompleted(id, resultId, now);
    if r.Ok? {
      jobs.Commit();
    }
  }

  method MarkFailedInUow(table: JobTable, id: string, text: string, now: int) returns (r: Result<AsyncJob>)
    requires Keyed(table.committed)
    modifies table`committed
    ensures r == FailedAnswer(old(table.committed), id, text, now)
    ensures table.committed == if r.Ok? then old(table.committed)[id := r.value] else old(table.committed)
    ensures Keyed(table.committed)
  {
    var jobs := new AsyncJobRepository(table);
    r := jobs.MarkFailed(id, text, now);
    if r.Ok? {
      jobs.Commit();
    }
  }
}
