/** The lifecycle of a background run: queued -> running -> completed | failed. */
module Jobs {
  import opened Basics

  datatype JobStatus = Queued | Running | Completed | Failed {
    predicate Terminal() { Completed? || Failed? }
  }

  /** A moment is a count of clock units; every moment stored here is timezone-aware. */
  datatype AsyncJob = AsyncJob(
    id: string,
    experimentId: string,
    status: JobStatus,
    celeryTaskId: Option<string>,
    evaluationResultId: Option<string>,
    error: Option<string>,
    createdAt: int,
    startedAt: Option<int>,
    completedAt: Option<int>)
  {
    /** Everything the constructor checks. */
    predicate Valid() {
      && !Blank(experimentId) && !Blank(id)
      && (startedAt.Some? ==> createdAt <= startedAt.value)
      && (startedAt.Some? && completedAt.Some? ==> startedAt.value <= completedAt.value)
      && (error.Some? ==> !Blank(error.value))
      && match status
         case Queued => startedAt.None? && completedAt.None? && !Truthy(error) && !Truthy(evaluationResultId)
         case Running => startedAt.Some? && completedAt.None? && !Truthy(error) && !Truthy(evaluationResultId)
         case Completed => startedAt.Some? && completedAt.Some? && evaluationResultId.Some? && error.None?
         case Failed => completedAt.Some? && error.Some? && evaluationResultId.None?
    }
  }

  /** Python's truth of an optional string: present and not empty. */
  predicate Truthy(s: Option<string>) { s.Some? && s.value != "" }

  // ----- Failure text -----

  const MAX_ERROR_LEN := 2000

  /** `_bound_error`: whatever the text, what is stored is short and not blank. */
  function BoundError(text: string): (stored: string)
    ensures |stored| <= MAX_ERROR_LEN && !Blank(stored)
    ensures Blank(text) ==> stored == "unknown error"
    ensures !Blank(text) && |Strip(text)| <= MAX_ERROR_LEN ==> stored == Strip(text)
    ensures |Strip(text)| > MAX_ERROR_LEN ==>
              |stored| == MAX_ERROR_LEN && stored == Strip(text)[..MAX_ERROR_LEN - 1] + "…"
  {
    StripFacts(text);
    var stripped := Strip(text);
    var cleaned := if |stripped| > MAX_ERROR_LEN then stripped[..MAX_ERROR_LEN - 1] + "…" else stripped;
    assert cleaned != "" ==> cleaned[0] == stripped[0];
    assert !IsSpace("unknown error"[0]);
    if cleaned != "" then cleaned else "unknown error"
  }

  // ----- Transitions -----

  /** Reading a row back constructs the entity, which checks it. */
  function Checked(job: AsyncJob): Result<AsyncJob> {
    if job.Valid() then Ok(job) else Err(DomainValidationError)
  }

  /** The columns each transition assigns. */
  function WithStart(job: AsyncJob, taskId: Option<string>, now: int): AsyncJob {
    job.(status := Running, startedAt := Some(now), celeryTaskId := if taskId.Some? then taskId else job.celeryTaskId)
  }

  function WithResult(job: AsyncJob, resultId: string, now: int): AsyncJob {
    job.(status := Completed, evaluationResultId := Some(resultId), error := None, completedAt := Some(now))
  }

  function WithError(job: AsyncJob, text: string, now: int): AsyncJob {
    job.(status := Failed, error := Some(BoundError(text)), evaluationResultId := None, completedAt := Some(now))
  }

  function MarkRunning(job: AsyncJob, taskId: Option<string>, now: int): Result<AsyncJob> {
    if job.status != Queued then Err(RecordConflict) else Checked(WithStart(job, taskId, now))
  }

  function MarkCompleted(job: AsyncJob, resultId: string, now: int): Result<AsyncJob> {
    if job.status != Running then Err(RecordConflict) else Checked(WithResult(job, resultId, now))
  }

  function MarkFailed(job: AsyncJob, text: string, now: int): Result<AsyncJob> {
    if job.status.Terminal() then Err(RecordConflict) else Checked(WithError(job, text, now))
  }

  /** Everything that has happened to the job happened by `now`. */
  predicate Past(job: AsyncJob, now: int) {
    && job.createdAt <= now
    && (job.startedAt.Some? ==> job.startedAt.value <= now)
  }

  /** With a clock that has not gone back, a transition is refused only for the state the job is
      in, and what it leaves is valid, of the same run, and past. */
  lemma TransitionsTotal(job: AsyncJob, taskId: Option<string>, resultId: string, text: string, now: int)
    requires job.Valid() && Past(job, now)
    ensures var r := MarkRunning(job, taskId, now);
            if job.status == Queued then r.Ok? && Becomes(job, r.value, Running, now) else r == Err(RecordConflict)
    ensures var r := MarkCompleted(job, resultId, now);
            if job.status == Running then r.Ok? && Becomes(job, r.value, Completed, now) else r == Err(RecordConflict)
    ensures var r := MarkFailed(job, text, now);
            if job.status.Terminal() then r == Err(RecordConflict) else r.Ok? && Becomes(job, r.value, Failed, now)
  {
    var error := BoundError(text);
  }

  /** What a transition records: the start its task id, if one is given, and its moment; the end its moment
      and the result or the bounded text; and nothing else. */
  lemma TransitionsRecord(job: AsyncJob, taskId: Option<string>, resultId: string, text: string, now: int)
    ensures var r := MarkRunning(job, taskId, now);
            r.Ok? ==>
              && SameJob(job, r.value) && r.value.status == Running
              && r.value.startedAt == Some(now) && r.value.completedAt == job.completedAt
              && r.value.celeryTaskId == (if taskId.Some? then taskId else job.celeryTaskId)
              && r.value.evaluationResultId == job.evaluationResultId && r.value.error == job.error
    ensures var r := MarkCompleted(job, resultId, now);
            r.Ok? ==>
              && SameJob(job, r.value) && r.value.status == Completed
              && r.value.startedAt == job.startedAt && r.value.completedAt == Some(now)
              && r.value.celeryTaskId == job.celeryTaskId
              && r.value.evaluationResultId == Some(resultId) && r.value.error == None
    ensures var r := MarkFailed(job, text, now);
            r.Ok? ==>
              && SameJob(job, r.value) && r.value.status == Failed
              && r.value.startedAt == job.startedAt && r.value.completedAt == Some(now)
              && r.value.celeryTaskId == job.celeryTaskId
              && r.value.evaluationResultId == None && r.value.error == Some(BoundError(text))
  {
    var error := BoundError(text);
  }

  predicate SameJob(job: AsyncJob, job': AsyncJob) {
    job'.id == job.id && job'.experimentId == job.experimentId && job'.createdAt == job.createdAt
  }

  /** The same job, now in `status`, with the moments it already had. */
  predicate Becomes(job: AsyncJob, job': AsyncJob, status: JobStatus, now: int) {
    && job'.Valid() && Past(job', now) && job'.status == status && SameJob(job, job')
    && (job.startedAt.Some? ==> job'.startedAt == job.startedAt)
  }

  /** A clock that goes back is caught: a start before the creation, or an end before the start,
      is refused, and these are the only transitions refused for a reason other than the state. */
  lemma RefusedByClock(job: AsyncJob, taskId: Option<string>, resultId: string, text: string, now: int)
    requires job.Valid()
    ensures MarkRunning(job, taskId, now) == Err(DomainValidationError) <==> job.status == Queued && now < job.createdAt
    ensures MarkCompleted(job, resultId, now) == Err(DomainValidationError)
       <==> job.status == Running && now < job.startedAt.value
    ensures MarkFailed(job, text, now) == Err(DomainValidationError)
       <==> job.status == Running && now < job.startedAt.value
  {
    var error := BoundError(text);
  }
}
