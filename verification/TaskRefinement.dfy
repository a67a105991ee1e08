/** Whole tasks are runs of the protocol: the enqueuer and the worker, uninterrupted, leave the committed
    rows as a few consecutive events do. */
module TaskRefinement {
  import opened Basics
  import opened Jobs
  import opened Persistence
  import opened Domain
  import opened JobRepository
  import opened ExecutionService
  import opened Protocol
  import opened ProtocolRefinement
  import opened Tasks

  /** The state after these events, from state `s`. */
  function After(g: Grids, s: State, events: seq<Event>): State
    decreases |events|
  {
    if events == [] then s else After(g, Step(g, s, events[0]), events[1..])
  }

  /** From a reachable state, that is the state reached by the longer run. */
  ghost predicate GoesOn(g: Grids, before: seq<Event>, events: seq<Event>) {
    After(g, Protocol.Run(g, before), events) == Protocol.Run(g, before + events)
  }

  lemma {:induction false} RunGoesOn(g: Grids, before: seq<Event>, events: seq<Event>)
    ensures GoesOn(g, before, events)
    decreases |events|
  {
    if events == [] {
      assert before + events == before;
    } else {
      RunGoesOn(g, before + [events[0]], events[1..]);
      GoesOnOneMore(g, before, events);
    }
  }

  lemma GoesOnOneMore(g: Grids, before: seq<Event>, events: seq<Event>)
    requires events != [] && GoesOn(g, before + [events[0]], events[1..])
    ensures GoesOn(g, before, events)
  {
    OneMoreEvent(g, before, events);
    assert before + [events[0]] + events[1..] == before + events;
  }

  lemma OneMoreEvent(g: Grids, before: seq<Event>, events: seq<Event>)
    requires events != []
    ensures After(g, Protocol.Run(g, before), events)
         == After(g, Protocol.Run(g, before + [events[0]]), events[1..])
  {
    var longer := before + [events[0]];
    assert longer[..|longer| - 1] == before;
    AfterFirst(g, Protocol.Run(g, before), events);
  }

  lemma AfterOne(g: Grids, s: State, a: Event)
    ensures After(g, s, [a]) == Step(g, s, a)
  {
  }

  lemma AfterTwo(g: Grids, s: State, a: Event, b: Event)
    ensures After(g, s, [a, b]) == Step(g, Step(g, s, a), b)
  {
    assert [a, b][1..] == [b];
    AfterOne(g, Step(g, s, a), b);
  }

  lemma AfterFirst(g: Grids, s: State, events: seq<Event>)
    requires events != []
    ensures After(g, s, events) == After(g, Step(g, s, events[0]), events[1..])
  {
  }

  lemma {:induction false} AfterConcat(g: Grids, s: State, first: seq<Event>, second: seq<Event>)
    ensures After(g, s, first + second) == After(g, After(g, s, first), second)
    decreases |first|
  {
    if first == [] {
      assert first + second == second;
    } else {
      AfterConcat(g, Step(g, s, first[0]), first[1..], second);
      AfterFirst(g, s, first);
      AfterFirst(g, s, first + second);
      assert (first + second)[1..] == first[1..] + second;
    }
  }

  // ----- The worker -----

  /** The rows are represented, and worker `w` is in this phase. */
  ghost predicate At(t: Tables, jobs: map<string, AsyncJob>, s: State, w: nat, phase: Worker) {
    Represents(t, jobs, s) && w in s.workers && s.workers[w] == phase
  }

  lemma TickAt(g: Grids, s: State, d: nat, t: Tables, jobs: map<string, AsyncJob>, w: nat, phase: Worker)
    requires At(t, jobs, s, w, phase)
    ensures At(t, jobs, Step(g, s, Tick(d)), w, phase)
  {
  }

  lemma StartAt(g: Grids, s: State, t: Tables, jobs: map<string, AsyncJob>, w: nat, j: string, taskId: Option<string>)
    requires At(t, jobs, s, w, Received(j))
    ensures var start, s' := RunningAnswer(jobs, j, taskId, s.now), Step(g, s, Start(w, taskId));
            && s'.now == s.now
            && if start.Err? then Represents(t, jobs, s') else At(t, jobs[j := start.value], s', w, Started(j))
  {
    StartRefines(g, t, jobs, s, w, taskId);
  }

  lemma BeginAt(g: Grids, s: State, t: Tables, jobs: map<string, AsyncJob>, w: nat, j: string)
    requires At(t, jobs, s, w, Started(j)) && j in jobs
    ensures var s' := Step(g, s, BeginEvaluation(w));
            && s'.now == s.now
            && At(t, jobs, s', w, if HasRuns(t, jobs[j].experimentId) then Broken(j) else Evaluating(j))
  {
    CheckRefines(t, jobs, s, jobs[j].experimentId);
  }

  lemma RaiseAt(g: Grids, s: State, t: Tables, jobs: map<string, AsyncJob>, w: nat, j: string)
    requires At(t, jobs, s, w, Evaluating(j)) || At(t, jobs, s, w, Broken(j))
    ensures var s' := Step(g, s, EvaluationRaises(w)); s'.now == s.now && At(t, jobs, s', w, Broken(j))
  {
  }

  lemma OneMoreResult(t: Tables, t': Tables, id: string, result: EvaluationResult)
    requires t'.results == t.results[id := result]
    ensures OwnersIn(t') == OwnersIn(t)[id := result.experimentId]
    ensures OwnersIn(t).Keys == t.results.Keys
  {
  }

  /** Seen from the protocol: the evaluation of `e` found no run, could be committed, and took the tables
      from `t` to `t'` as the commit takes the store. */
  ghost predicate CommitsAs(g: Grids, e: string, result: string, t: Tables, t': Tables) {
    !HasRuns(t, e) && result in t'.results && forall store, owner :: CommitsTo(g, e, result, t, t', store, owner)
  }

  ghost predicate CommitsTo(g: Grids, e: string, result: string, t: Tables, t': Tables, store: Store, owner: Owner) {
    Views(store, t) ==> CanCommit(g, store, e, result) && Views(Commit(g, store, e, result, owner), t')
  }

  /** Seen from the protocol: how an evaluation went. */
  ghost predicate EvaluatesAs(g: Grids, e: string, evaluation: Result<RunResponse>, t: Tables, t': Tables) {
    match evaluation
    case Err(_) => t' == t
    case Ok(response) => CommitsAs(g, e, response.evaluationResultId, t, t')
  }

  lemma GainCommits(
    g: Grids, e: string, result: string, t: Tables, t': Tables, store: Store, owner: Owner)
    requires e in g && g[e] !! KeysIn(t) && KeysIn(t') == KeysIn(t) + g[e]
    requires result !in t.results && OwnersIn(t') == OwnersIn(t)[result := e] && OwnersIn(t).Keys == t.results.Keys
    ensures CommitsTo(g, e, result, t, t', store, owner)
  {
  }

  lemma PersistedCommits(cat: Catalogue, e: string, req: Request, response: RunResponse, t: Tables, t': Tables)
    requires ClosedCatalogue(cat) && Evaluated(cat, e, req, response) && !HasRuns(t, e)
    requires Persisted(cat, e, response, t, t')
    ensures CommitsAs(GridsOf(cat), e, response.evaluationResultId, t, t')
  {
    var g, result := GridsOf(cat), response.evaluationResultId;
    OneMoreResult(t, t', result, response.evaluation.result);
    forall store, owner
      ensures CommitsTo(g, e, result, t, t', store, owner)
    {
      GainCommits(g, e, result, t, t', store, owner);
    }
  }

  lemma DoneEvaluates(
    cat: Catalogue, e: string, req: Request, evaluation: Result<RunResponse>, t: Tables, t': Tables)
    requires ClosedCatalogue(cat) && EvaluationDone(cat, e, req, evaluation, t, t')
    ensures EvaluatesAs(GridsOf(cat), e, evaluation, t, t')
  {
    match evaluation
    case Ok(response) => PersistedCommits(cat, e, req, response, t, t');
    case Err(_) =>
  }

  lemma CommitPhase(g: Grids, s: State, w: nat, j: string, result: string)
    requires w in s.workers && s.workers[w] == Evaluating(j) && j in s.rows.jobs
    requires CanCommit(g, s.store, s.rows.jobs[j].experimentId, result)
    ensures var s' := Step(g, s, CommitEvaluation(w, result));
            && s'.now == s.now && s'.rows == s.rows && w in s'.workers && s'.workers[w] == Committed(j, result)
            && s'.store == Commit(g, s.store, s.rows.jobs[j].experimentId, result, ByJob(j))
  {
  }

  lemma CommitAt(
    g: Grids, s: State, t: Tables, t': Tables, jobs: map<string, AsyncJob>, w: nat, j: string, result: string)
    requires At(t, jobs, s, w, Evaluating(j)) && j in jobs && CommitsAs(g, jobs[j].experimentId, result, t, t')
    ensures var s' := Step(g, s, CommitEvaluation(w, result));
            s'.now == s.now && At(t', jobs, s', w, Committed(j, result))
  {
    assert CommitsTo(g, jobs[j].experimentId, result, t, t', s.store, ByJob(j));
    CommitPhase(g, s, w, j, result);
  }

  /** The committed rows after the last unit of work of the worker. */
  function Ended(jobs: map<string, AsyncJob>, j: string, last: Result<AsyncJob>): map<string, AsyncJob> {
    if last.Ok? then jobs[j := last.value] else jobs
  }

  lemma CompleteAt(g: Grids, s: State, t: Tables, jobs: map<string, AsyncJob>, w: nat, j: string, result: string)
    requires At(t, jobs, s, w, Committed(j, result)) && j in jobs && result in t.results
    ensures Represents(t, Ended(jobs, j, MarkCompleted(jobs[j], result, s.now)), Step(g, s, Complete(w)))
  {
    CompleteRefines(g, t, jobs, s, w);
  }

  lemma FailAt(g: Grids, s: State, t: Tables, jobs: map<string, AsyncJob>, w: nat, j: string, text: string)
    requires At(t, jobs, s, w, Broken(j)) && j in jobs
    ensures Represents(t, Ended(jobs, j, MarkFailed(jobs[j], text, s.now)), Step(g, s, RecordFailure(w, text)))
  {
    FailRefines(g, t, jobs, s, w, text);
  }

  /** The events of a task once its job is running, given how its evaluation went. */
  function RestEvents(
    w: nat, evaluation: Result<RunResponse>, describe: Error -> string, elapsed: nat): seq<Event>
  {
    match evaluation
    case Ok(response) =>
      [BeginEvaluation(w), CommitEvaluation(w, response.evaluationResultId), Tick(elapsed), Complete(w)]
    case Err(e) => [BeginEvaluation(w), EvaluationRaises(w), Tick(elapsed), RecordFailure(w, describe(e))]
  }

  /** The events of a task, given whether its start was accepted and how its evaluation went. */
  function TaskEvents(
    w: nat, taskId: Option<string>, start: Result<AsyncJob>, evaluation: Result<RunResponse>,
    describe: Error -> string, elapsed: nat): seq<Event>
  {
    [Start(w, taskId)] + if start.Err? then [] else RestEvents(w, evaluation, describe, elapsed)
  }

  lemma BeginAndCommit(
    g: Grids, s: State, t: Tables, t': Tables, jobs: map<string, AsyncJob>, w: nat, j: string, result: string)
    requires At(t, jobs, s, w, Started(j)) && j in jobs && CommitsAs(g, jobs[j].experimentId, result, t, t')
    ensures var s' := After(g, s, [BeginEvaluation(w), CommitEvaluation(w, result)]);
            s'.now == s.now && At(t', jobs, s', w, Committed(j, result)) && result in t'.results
  {
    AfterTwo(g, s, BeginEvaluation(w), CommitEvaluation(w, result));
    BeginAt(g, s, t, jobs, w, j);
    CommitAt(g, Step(g, s, BeginEvaluation(w)), t, t', jobs, w, j, result);
  }

  lemma WaitAndComplete(
    g: Grids, s: State, t: Tables, jobs: map<string, AsyncJob>, w: nat, j: string, result: string, elapsed: nat)
    requires At(t, jobs, s, w, Committed(j, result)) && j in jobs && result in t.results
    ensures Represents(t, Ended(jobs, j, MarkCompleted(jobs[j], result, s.now + elapsed)),
                       After(g, s, [Tick(elapsed), Complete(w)]))
  {
    AfterTwo(g, s, Tick(elapsed), Complete(w));
    TickAt(g, s, elapsed, t, jobs, w, Committed(j, result));
    CompleteAt(g, Step(g, s, Tick(elapsed)), t, jobs, w, j, result);
  }

  lemma BeginAndRaise(g: Grids, s: State, t: Tables, jobs: map<string, AsyncJob>, w: nat, j: string)
    requires At(t, jobs, s, w, Started(j)) && j in jobs
    ensures var s' := After(g, s, [BeginEvaluation(w), EvaluationRaises(w)]);
            s'.now == s.now && At(t, jobs, s', w, Broken(j))
  {
    AfterTwo(g, s, BeginEvaluation(w), EvaluationRaises(w));
    BeginAt(g, s, t, jobs, w, j);
    RaiseAt(g, Step(g, s, BeginEvaluation(w)), t, jobs, w, j);
  }

  lemma WaitAndFail(
    g: Grids, s: State, t: Tables, jobs: map<string, AsyncJob>, w: nat, j: string, text: string, elapsed: nat)
    requires At(t, jobs, s, w, Broken(j)) && j in jobs
    ensures Represents(t, Ended(jobs, j, MarkFailed(jobs[j], text, s.now + elapsed)),
                       After(g, s, [Tick(elapsed), RecordFailure(w, text)]))
  {
    AfterTwo(g, s, Tick(elapsed), RecordFailure(w, text));
    TickAt(g, s, elapsed, t, jobs, w, Broken(j));
    FailAt(g, Step(g, s, Tick(elapsed)), t, jobs, w, j, text);
  }

  lemma SuccessfulRest(
    g: Grids, s: State, t: Tables, t': Tables, jobs: map<string, AsyncJob>, w: nat, j: string, result: string,
    elapsed: nat)
    requires At(t, jobs, s, w, Started(j)) && j in jobs && CommitsAs(g, jobs[j].experimentId, result, t, t')
    ensures Represents(t', Ended(jobs, j, MarkCompleted(jobs[j], result, s.now + elapsed)),
              After(g, s, [BeginEvaluation(w), CommitEvaluation(w, result), Tick(elapsed), Complete(w)]))
  {
    var first, second := [BeginEvaluation(w), CommitEvaluation(w, result)], [Tick(elapsed), Complete(w)];
    BeginAndCommit(g, s, t, t', jobs, w, j, result);
    WaitAndComplete(g, After(g, s, first), t', jobs, w, j, result, elapsed);
    AfterConcat(g, s, first, second);
    assert first + second == [BeginEvaluation(w), CommitEvaluation(w, result), Tick(elapsed), Complete(w)];
  }

  lemma FailingRest(
    g: Grids, s: State, t: Tables, jobs: map<string, AsyncJob>, w: nat, j: string, text: string, elapsed: nat)
    requires At(t, jobs, s, w, Started(j)) && j in jobs
    ensures Represents(t, Ended(jobs, j, MarkFailed(jobs[j], text, s.now + elapsed)),
              After(g, s, [BeginEvaluation(w), EvaluationRaises(w), Tick(elapsed), RecordFailure(w, text)]))
  {
    var first, second := [BeginEvaluation(w), EvaluationRaises(w)], [Tick(elapsed), RecordFailure(w, text)];
    BeginAndRaise(g, s, t, jobs, w, j);
    WaitAndFail(g, After(g, s, first), t, jobs, w, j, text, elapsed);
    AfterConcat(g, s, first, second);
    assert first + second == [BeginEvaluation(w), EvaluationRaises(w), Tick(elapsed), RecordFailure(w, text)];
  }

  /** The rest of a task whose job is running. */
  lemma RestOfTask(
    g: Grids, s: State, t: Tables, t': Tables, jobs: map<string, AsyncJob>, w: nat, j: string,
    describe: Error -> string, elapsed: nat, evaluation: Result<RunResponse>)
    requires At(t, jobs, s, w, Started(j)) && j in jobs && EvaluatesAs(g, jobs[j].experimentId, evaluation, t, t')
    ensures Represents(t', Ended(jobs, j, LastTransition(jobs[j], evaluation, describe, s.now + elapsed)),
                       After(g, s, RestEvents(w, evaluation, describe, elapsed)))
  {
    match evaluation
    case Ok(response) => SuccessfulRest(g, s, t, t', jobs, w, j, response.evaluationResultId, elapsed);
    case Err(e) => FailingRest(g, s, t, jobs, w, j, describe(e), elapsed);
  }

  lemma StartedTask(
    g: Grids, s: State, t: Tables, t': Tables, jobs: map<string, AsyncJob>, w: nat, running: AsyncJob, j: string,
    taskId: Option<string>, describe: Error -> string, elapsed: nat, evaluation: Result<RunResponse>)
    requires var s' := After(g, s, [Start(w, taskId)]); s'.now == s.now && At(t, jobs[j := running], s', w, Started(j))
    requires EvaluatesAs(g, running.experimentId, evaluation, t, t')
    ensures var last := LastTransition(running, evaluation, describe, s.now + elapsed);
            Represents(t', jobs[j := if last.Ok? then last.value else running],
                       After(g, s, [Start(w, taskId)] + RestEvents(w, evaluation, describe, elapsed)))
  {
    RestOfTask(g, After(g, s, [Start(w, taskId)]), t, t', jobs[j := running], w, j, describe, elapsed, evaluation);
    AfterConcat(g, s, [Start(w, taskId)], RestEvents(w, evaluation, describe, elapsed));
    EndedAsDone(jobs, j, running, LastTransition(running, evaluation, describe, s.now + elapsed));
  }

  /** A whole uninterrupted task, from any state in which worker `w` holds a message of the job: it leaves
      tables and job rows as its run of the protocol does, whether it is refused at the start, succeeds
      or fails. */
  lemma TaskIsRun(
    cat: Catalogue, s: State, jobs: map<string, AsyncJob>, t: Tables, w: nat, jobId: string,
    taskId: Option<string>, req: Request, describe: Error -> string, elapsed: nat, r: Result<RunResponse>,
    evaluation: Result<RunResponse>, jobs': map<string, AsyncJob>, t': Tables)
    requires ClosedCatalogue(cat) && At(t, jobs, s, w, Received(jobId))
    requires TaskDone(cat, jobs, t, jobId, taskId, req, describe, s.now, s.now + elapsed, r, evaluation, jobs', t')
    ensures var start := RunningAnswer(jobs, jobId, taskId, s.now);
            Represents(t', jobs', After(GridsOf(cat), s, TaskEvents(w, taskId, start, evaluation, describe, elapsed)))
  {
    var start := RunningAnswer(jobs, jobId, taskId, s.now);
    TaskStarts(GridsOf(cat), s, t, jobs, w, jobId, taskId);
    if start.Err? {
      assert TaskEvents(w, taskId, start, evaluation, describe, elapsed) == [Start(w, taskId)];
    } else {
      DoneEvaluates(cat, start.value.experimentId, req, evaluation, t, t');
      StartedTask(GridsOf(cat), s, t, t', jobs, w, start.value, jobId, taskId, describe, elapsed, evaluation);
    }
  }

  lemma TaskStarts(
    g: Grids, s: State, t: Tables, jobs: map<string, AsyncJob>, w: nat, j: string, taskId: Option<string>)
    requires At(t, jobs, s, w, Received(j))
    ensures var start, s' := RunningAnswer(jobs, j, taskId, s.now), After(g, s, [Start(w, taskId)]);
            && s'.now == s.now
            && if start.Err? then Represents(t, jobs, s') else At(t, jobs[j := start.value], s', w, Started(j))
  {
    AfterOne(g, s, Start(w, taskId));
    StartAt(g, s, t, jobs, w, j, taskId);
  }

  lemma EndedAsDone(jobs: map<string, AsyncJob>, j: string, running: AsyncJob, last: Result<AsyncJob>)
    ensures Ended(jobs[j := running], j, last) == jobs[j := if last.Ok? then last.value else running]
  {
  }

  // ----- The enqueuer -----

  /** The rows are represented, and the enqueuer of job `j` is in this phase. */
  ghost predicate EnqueuerAt(t: Tables, jobs: map<string, AsyncJob>, s: State, j: string, phase: Enqueuer) {
    Represents(t, jobs, s) && j in s.enqueuers && s.enqueuers[j] == phase
  }

  lemma EnqueueAt(g: Grids, s: State, t: Tables, jobs: map<string, AsyncJob>, j: string, e: string)
    requires Represents(t, jobs, s) && NewJob(j, e, s.now).Valid()
    ensures var job, s' := NewJob(j, e, s.now), After(g, s, [Enqueue(j, e)]);
            && s'.now == s.now
            && if AddedAnswer(jobs, g.Keys, job).Err? then Represents(t, jobs, s')
               else EnqueuerAt(t, jobs[j := job], s', j, Dispatching)
  {
    AfterOne(g, s, Enqueue(j, e));
    EnqueueRefines(g, t, jobs, s, j, e);
  }

  lemma SendAndReturn(g: Grids, s: State, t: Tables, jobs: map<string, AsyncJob>, j: string)
    requires EnqueuerAt(t, jobs, s, j, Dispatching)
    ensures Represents(t, jobs, After(g, s, [Send(j), DispatchReturns(j)]))
  {
    AfterTwo(g, s, Send(j), DispatchReturns(j));
  }

  /** Dispatch raises, whether or not the message went out. */
  function Raising(j: string, delivered: bool): seq<Event> {
    if delivered then [Send(j), DispatchRaises(j)] else [DispatchRaises(j)]
  }

  lemma SendAndRaise(g: Grids, s: State, t: Tables, jobs: map<string, AsyncJob>, j: string, delivered: bool)
    requires EnqueuerAt(t, jobs, s, j, Dispatching)
    ensures var s' := After(g, s, Raising(j, delivered)); s'.now == s.now && EnqueuerAt(t, jobs, s', j, Failing)
  {
    if delivered {
      AfterTwo(g, s, Send(j), DispatchRaises(j));
    } else {
      AfterOne(g, s, DispatchRaises(j));
    }
  }

  lemma WaitAndRecord(
    g: Grids, s: State, t: Tables, jobs: map<string, AsyncJob>, j: string, text: string, elapsed: nat)
    requires EnqueuerAt(t, jobs, s, j, Failing) && j in jobs
    ensures Represents(t, Ended(jobs, j, MarkFailed(jobs[j], text, s.now + elapsed)),
                       After(g, s, [Tick(elapsed), RecordDispatchFailure(j, text)]))
  {
    AfterTwo(g, s, Tick(elapsed), RecordDispatchFailure(j, text));
    DispatchFailureRefines(g, t, jobs, Step(g, s, Tick(elapsed)), j, text);
  }

  /** The events of an enqueuer whose row was accepted, given how dispatch went. */
  function DispatchEvents(j: string, dispatch: Option<string>, delivered: bool, elapsed: nat): seq<Event> {
    if dispatch.None? then [Send(j), DispatchReturns(j)]
    else Raising(j, delivered) + [Tick(elapsed), RecordDispatchFailure(j, dispatch.value)]
  }

  /** The events of an enqueuer, given whether the row was accepted and how dispatch went. */
  function EnqueueEvents(
    j: string, e: string, accepted: bool, dispatch: Option<string>, delivered: bool, elapsed: nat): seq<Event>
  {
    [Enqueue(j, e)] + if accepted then DispatchEvents(j, dispatch, delivered, elapsed) else []
  }

  lemma RaisingRest(
    g: Grids, s: State, t: Tables, jobs: map<string, AsyncJob>, j: string, text: string, delivered: bool, elapsed: nat)
    requires EnqueuerAt(t, jobs, s, j, Dispatching) && j in jobs
    ensures Represents(t, Ended(jobs, j, MarkFailed(jobs[j], text, s.now + elapsed)),
                       After(g, s, Raising(j, delivered) + [Tick(elapsed), RecordDispatchFailure(j, text)]))
  {
    SendAndRaise(g, s, t, jobs, j, delivered);
    WaitAndRecord(g, After(g, s, Raising(j, delivered)), t, jobs, j, text, elapsed);
    AfterConcat(g, s, Raising(j, delivered), [Tick(elapsed), RecordDispatchFailure(j, text)]);
  }

  lemma RaisedEnqueue(
    g: Grids, s: State, t: Tables, jobs: map<string, AsyncJob>, job: AsyncJob, text: string, delivered: bool,
    elapsed: nat)
    requires EnqueuerAt(t, jobs[job.id := job], s, job.id, Dispatching) && job.Valid() && job.status == Queued
    ensures Represents(t, jobs[job.id := WithError(job, text, s.now + elapsed)],
              After(g, s, Raising(job.id, delivered) + [Tick(elapsed), RecordDispatchFailure(job.id, text)]))
  {
    RaisingRest(g, s, t, jobs[job.id := job], job.id, text, delivered, elapsed);
    FailingFromQueue(job, text, s.now + elapsed);
    EndedAsDone(jobs, job.id, job, MarkFailed(job, text, s.now + elapsed));
  }

  lemma RestOfEnqueue(
    g: Grids, s: State, t: Tables, jobs: map<string, AsyncJob>, job: AsyncJob, dispatch: Option<string>,
    delivered: bool, elapsed: nat)
    requires EnqueuerAt(t, jobs[job.id := job], s, job.id, Dispatching) && job.Valid() && job.status == Queued
    ensures Represents(
              t, jobs[job.id := if dispatch.None? then job else WithError(job, dispatch.value, s.now + elapsed)],
              After(g, s, DispatchEvents(job.id, dispatch, delivered, elapsed)))
  {
    if dispatch.None? {
      SendAndReturn(g, s, t, jobs[job.id := job], job.id);
    } else {
      RaisedEnqueue(g, s, t, jobs, job, dispatch.value, delivered, elapsed);
    }
  }

  lemma AcceptedEnqueue(
    g: Grids, s: State, t: Tables, jobs: map<string, AsyncJob>, job: AsyncJob, e: string, dispatch: Option<string>,
    delivered: bool, elapsed: nat)
    requires var s' := After(g, s, [Enqueue(job.id, e)]);
             s'.now == s.now && EnqueuerAt(t, jobs[job.id := job], s', job.id, Dispatching)
    requires job.Valid() && job.status == Queued
    ensures Represents(
              t, jobs[job.id := if dispatch.None? then job else WithError(job, dispatch.value, s.now + elapsed)],
              After(g, s, EnqueueEvents(job.id, e, true, dispatch, delivered, elapsed)))
  {
    AfterConcat(g, s, [Enqueue(job.id, e)], DispatchEvents(job.id, dispatch, delivered, elapsed));
    RestOfEnqueue(g, After(g, s, [Enqueue(job.id, e)]), t, jobs, job, dispatch, delivered, elapsed);
  }

  /** A whole uninterrupted enqueuer leaves the job rows as its run of the protocol does: its row refused,
      its message sent, or its dispatch raised, with the message gone out or not. */
  lemma EnqueueIsRun(
    g: Grids, s: State, t: Tables, jobs: map<string, AsyncJob>, j: string, e: string, dispatch: Option<string>,
    delivered: bool, elapsed: nat, r: Result<AsyncJob>, jobs': map<string, AsyncJob>)
    requires Represents(t, jobs, s) && NewJob(j, e, s.now).Valid()
    requires EnqueueDone(jobs, g.Keys, NewJob(j, e, s.now), dispatch, s.now + elapsed, r, jobs')
    ensures var accepted := AddedAnswer(jobs, g.Keys, NewJob(j, e, s.now)).Ok?;
            Represents(t, jobs', After(g, s, EnqueueEvents(j, e, accepted, dispatch, delivered, elapsed)))
  {
    EnqueueAt(g, s, t, jobs, j, e);
    if AddedAnswer(jobs, g.Keys, NewJob(j, e, s.now)).Err? {
      assert EnqueueEvents(j, e, false, dispatch, delivered, elapsed) == [Enqueue(j, e)];
    } else {
      AcceptedEnqueue(g, s, t, jobs, NewJob(j, e, s.now), e, dispatch, delivered, elapsed);
    }
  }

  // ----- The synchronous request -----

  /** A request gets past its check exactly when the experiment is registered and has no runs. */
  lemma RequestBeginsExactly(g: Grids, s: State, t: Tables, jobs: map<string, AsyncJob>, n: nat, e: string)
    requires Represents(t, jobs, s) && n !in s.requests
    ensures var s' := Step(g, s, RequestBegins(n, e));
            && Represents(t, jobs, s') && s'.store == s.store
            && (n in s'.requests <==> e in g && !HasRuns(t, e))
            && (n in s'.requests ==> s'.requests[n] == e)
  {
    CheckRefines(t, jobs, s, e);
  }

  /** The events of a request, given how its evaluation went. */
  function RequestEvents(n: nat, e: string, evaluation: Result<RunResponse>): seq<Event> {
    match evaluation
    case Ok(response) => [RequestBegins(n, e), RequestCommits(n, response.evaluationResultId)]
    case Err(_) => [RequestBegins(n, e), RequestEnds(n)]
  }

  lemma RequestCommitsAs(
    g: Grids, s: State, t: Tables, t': Tables, jobs: map<string, AsyncJob>, n: nat, e: string, result: string)
    requires Represents(t, jobs, s) && n in s.requests && s.requests[n] == e && CommitsAs(g, e, result, t, t')
    ensures Represents(t', jobs, Step(g, s, RequestCommits(n, result)))
  {
    assert CommitsTo(g, e, result, t, t', s.store, ByRequest(n));
  }

  /** A whole synchronous request leaves tables and job rows as its run of the protocol does. */
  lemma RequestIsRun(
    cat: Catalogue, s: State, jobs: map<string, AsyncJob>, t: Tables, n: nat, e: string, req: Request,
    evaluation: Result<RunResponse>, t': Tables)
    requires ClosedCatalogue(cat) && Represents(t, jobs, s) && n !in s.requests
    requires EvaluationDone(cat, e, req, evaluation, t, t')
    ensures Represents(t', jobs, After(GridsOf(cat), s, RequestEvents(n, e, evaluation)))
  {
    var g := GridsOf(cat);
    RequestBeginsExactly(g, s, t, jobs, n, e);
    DoneEvaluates(cat, e, req, evaluation, t, t');
    match evaluation
    case Ok(response) =>
      AfterTwo(g, s, RequestBegins(n, e), RequestCommits(n, response.evaluationResultId));
      RequestCommitsAs(g, Step(g, s, RequestBegins(n, e)), t, t', jobs, n, e, response.evaluationResultId);
    case Err(_) =>
      AfterTwo(g, s, RequestBegins(n, e), RequestEnds(n));
  }
}
