/** Background and synchronous runs of experiments as one step system: any number of enqueuers,
    workers and requests, interleaved in any order, any of them dying between two steps; and the
    invariant that every step keeps. */
module Protocol {
  import opened Basics
  import opened Jobs
  import opened Persistence

  /** The run keys of every registered experiment. */
  type Grids = map<string, set<RunKey>>

  /** A dataset has cases and repeats are at least one, so no grid is empty; keys name their experiment. */
  ghost predicate ValidGrids(g: Grids) {
    forall e :: e in g ==> g[e] != {} && forall k :: k in g[e] ==> k.experimentId == e
  }

  /** Who committed a result. */
  datatype Owner = ByJob(job: string) | ByRequest(request: nat)

  /** An enqueuer whose job row is committed: about to send, sent, or told that sending failed. */
  datatype Enqueuer = Dispatching | Sent | Failing

  /** A worker holding a message: before its first transaction, then between any two later ones. */
  datatype Worker =
    | Received(job: string)
    | Started(job: string)
    | Evaluating(job: string)
    | Committed(job: string, result: string)
    | Broken(job: string)
  {
    /** It is the one that moved its job to running. */
    predicate Active() { !Received? }
  }

  /** The committed evaluation tables, and, as history, who committed each result. */
  datatype Store = Store(keys: set<RunKey>, results: map<string, string>, owners: map<string, Owner>)

  /** The committed job rows, and, as history, the states each has been in. */
  datatype Rows = Rows(jobs: map<string, AsyncJob>, histories: map<string, seq<JobStatus>>) {
    predicate Is(j: string, status: JobStatus) { j in jobs && jobs[j].status == status }

    /** Job `j` has been started. */
    predicate Ran(j: string) {
      && j in jobs && jobs[j].status != Queued
      && j in histories && |histories[j]| > 1 && histories[j][1] == Running
    }
  }

  type Workers = map<nat, Worker>

  datatype State = State(
    now: int,
    store: Store,
    rows: Rows,
    // Messages in the broker, each naming a job, and the jobs for which one was ever sent.
    queue: multiset<string>,
    sent: set<string>,
    // Processes, each between two of its steps.
    enqueuers: map<string, Enqueuer>,
    workers: Workers,
    requests: map<nat, string>,
    // As history: jobs whose dispatch raised although the message was sent, jobs whose worker raised
    // although its evaluation was committed, and evaluations begun, by job.
    ambiguous: set<string>,
    late: set<string>,
    evaluations: multiset<string>)
  {
    /** The jobs that may be recorded as failed and own a result. */
    function Excused(): set<string> { ambiguous + late }
  }

  const INITIAL := State(
    0, Store({}, map[], map[]), Rows(map[], map[]), multiset{}, {}, map[], map[], map[], {}, {}, multiset{})

  /** Each event is one atomic step: a committed unit of work, a broker action, or a death. An event
      that its process cannot take leaves the state as it is. */
  datatype Event =
    | Tick(elapsed: nat)
    | Enqueue(job: string, experiment: string)
    | Send(job: string)
    | DispatchReturns(job: string)
    | DispatchRaises(job: string)
    | RecordDispatchFailure(job: string, text: string)
    | EnqueuerDies(job: string)
    | Duplicate(job: string)
    | Lose(job: string)
    | Receive(worker: nat, job: string)
    | Start(worker: nat, taskId: Option<string>)
    | BeginEvaluation(worker: nat)
    | EvaluationRaises(worker: nat)
    | CommitEvaluation(worker: nat, result: string)
    | Complete(worker: nat)
    | RecordFailure(worker: nat, text: string)
    | WorkerDies(worker: nat)
    | RequestBegins(request: nat, experiment: string)
    | RequestCommits(request: nat, result: string)
    | RequestEnds(request: nat)

  // ----- Job rows -----

  /** Commit a transition of job `j`; a refused one is rolled back. */
  function Mark(rows: Rows, j: string, r: Result<AsyncJob>): Rows {
    if r.Err? || j !in rows.histories then rows
    else Rows(rows.jobs[j := r.value], rows.histories[j := rows.histories[j] + [r.value.status]])
  }

  function NewJob(j: string, e: string, now: int): AsyncJob {
    AsyncJob(j, e, Queued, None, None, None, now, None, None)
  }

  // ----- The store -----

  /** The already-run check finds nothing. */
  predicate NoRuns(store: Store, e: string) {
    forall k :: k in store.keys ==> k.experimentId != e
  }

  /** The insert of a whole evaluation can commit: none of its unique keys is taken. */
  predicate CanCommit(g: Grids, store: Store, e: string, result: string) {
    e in g && g[e] !! store.keys && result !in store.results
  }

  function Commit(g: Grids, store: Store, e: string, result: string, owner: Owner): Store
    requires e in g
  {
    Store(store.keys + g[e], store.results[result := e], store.owners[result := owner])
  }

  // ----- Steps -----

  /** The first transaction of the enqueuer; a missing experiment violates the foreign key. */
  function EnqueueStep(g: Grids, s: State, j: string, e: string): State {
    var job := NewJob(j, e, s.now);
    if j in s.rows.jobs || e !in g || !job.Valid() then s
    else
      s.(rows := Rows(s.rows.jobs[j := job], s.rows.histories[j := [Queued]]),
         enqueuers := s.enqueuers[j := Dispatching])
  }

  function EnqueuerStep(s: State, event: Event): State {
    match event
    case Send(j) =>
      if j in s.enqueuers && s.enqueuers[j].Dispatching?
      then s.(enqueuers := s.enqueuers[j := Sent], queue := s.queue + multiset{j}, sent := s.sent + {j})
      else s
    case DispatchReturns(j) =>
      if j in s.enqueuers && s.enqueuers[j].Sent? then s.(enqueuers := s.enqueuers - {j}) else s
    case DispatchRaises(j) =>
      if j in s.enqueuers && !s.enqueuers[j].Failing?
      then s.(enqueuers := s.enqueuers[j := Failing],
              ambiguous := if s.enqueuers[j].Sent? then s.ambiguous + {j} else s.ambiguous)
      else s
    case EnqueuerDies(j) => s.(enqueuers := s.enqueuers - {j})
    case _ => s
  }

  function DispatchFailureStep(s: State, j: string, text: string): State {
    if j in s.enqueuers && s.enqueuers[j].Failing? && j in s.rows.jobs
    then s.(rows := Mark(s.rows, j, MarkFailed(s.rows.jobs[j], text, s.now)), enqueuers := s.enqueuers - {j})
    else s
  }

  /** The broker may lose any message, and deliver any message ever sent once more. A message is
      acknowledged, and so gone, when it is received. */
  function BrokerStep(s: State, event: Event): State {
    match event
    case Duplicate(j) => if j in s.sent then s.(queue := s.queue + multiset{j}) else s
    case Lose(j) => s.(queue := s.queue - multiset{j})
    case Receive(w, j) =>
      if j in s.queue && w !in s.workers
      then s.(workers := s.workers[w := Received(j)], queue := s.queue - multiset{j})
      else s
    case _ => s
  }

  /** The worker's first transaction; if it is refused the worker stops there. */
  function StartStep(s: State, w: nat, taskId: Option<string>): State {
    if w !in s.workers || !s.workers[w].Received? then s
    else
      var j := s.workers[w].job;
      if j !in s.rows.jobs || MarkRunning(s.rows.jobs[j], taskId, s.now).Err? then s.(workers := s.workers - {w})
      else
        s.(rows := Mark(s.rows, j, MarkRunning(s.rows.jobs[j], taskId, s.now)), workers := s.workers[w := Started(j)])
  }

  /** The evaluation transaction reads: an experiment that has runs is refused, any other is evaluated. */
  function BeginStep(s: State, w: nat): State {
    if w !in s.workers || !s.workers[w].Started? || s.workers[w].job !in s.rows.jobs then s
    else
      var j := s.workers[w].job;
      if NoRuns(s.store, s.rows.jobs[j].experimentId)
      then s.(workers := s.workers[w := Evaluating(j)], evaluations := s.evaluations + multiset{j})
      else s.(workers := s.workers[w := Broken(j)])
  }

  /** Running the experiment raises, possibly after its transaction has committed: a soft time limit can
      strike anywhere before the call returns. */
  function RaiseStep(s: State, w: nat): State {
    if w !in s.workers || s.workers[w].Received? || s.workers[w].Broken? then s
    else
      var j := s.workers[w].job;
      s.(workers := s.workers[w := Broken(j)], late := if s.workers[w].Committed? then s.late + {j} else s.late)
  }

  /** The evaluation transaction commits, unless a unique key it needs has been taken meanwhile. */
  function CommitStep(g: Grids, s: State, w: nat, result: string): State {
    if w !in s.workers || !s.workers[w].Evaluating? || s.workers[w].job !in s.rows.jobs then s
    else
      var j := s.workers[w].job;
      var e := s.rows.jobs[j].experimentId;
      if CanCommit(g, s.store, e, result)
      then s.(store := Commit(g, s.store, e, result, ByJob(j)), workers := s.workers[w := Committed(j, result)])
      else s.(workers := s.workers[w := Broken(j)])
  }

  /** The worker's last transaction, after a committed evaluation. */
  function CompleteStep(s: State, w: nat): State {
    if w !in s.workers || !s.workers[w].Committed? || s.workers[w].job !in s.rows.jobs then s
    else
      var j := s.workers[w].job;
      s.(rows := Mark(s.rows, j, MarkCompleted(s.rows.jobs[j], s.workers[w].result, s.now)), workers := s.workers - {w})
  }

  /** The worker's last transaction, after a failed evaluation. */
  function FailStep(s: State, w: nat, text: string): State {
    if w !in s.workers || !s.workers[w].Broken? || s.workers[w].job !in s.rows.jobs then s
    else
      var j := s.workers[w].job;
      s.(rows := Mark(s.rows, j, MarkFailed(s.rows.jobs[j], text, s.now)), workers := s.workers - {w})
  }

  /** A synchronous run: one transaction, whose check and whose commit are apart. */
  function RequestStep(g: Grids, s: State, event: Event): State {
    match event
    case RequestBegins(n, e) =>
      if n !in s.requests && e in g && NoRuns(s.store, e) then s.(requests := s.requests[n := e]) else s
    case RequestCommits(n, result) =>
      if n in s.requests && CanCommit(g, s.store, s.requests[n], result)
      then s.(store := Commit(g, s.store, s.requests[n], result, ByRequest(n)), requests := s.requests - {n})
      else s.(requests := s.requests - {n})
    case RequestEnds(n) => s.(requests := s.requests - {n})
    case _ => s
  }

  function Step(g: Grids, s: State, event: Event): State {
    match event
    case Tick(d) => s.(now := s.now + d)
    case Enqueue(j, e) => EnqueueStep(g, s, j, e)
    case Send(_) | DispatchReturns(_) | DispatchRaises(_) | EnqueuerDies(_) => EnqueuerStep(s, event)
    case RecordDispatchFailure(j, text) => DispatchFailureStep(s, j, text)
    case Duplicate(_) | Lose(_) | Receive(_, _) => BrokerStep(s, event)
    case Start(w, taskId) => StartStep(s, w, taskId)
    case BeginEvaluation(w) => BeginStep(s, w)
    case EvaluationRaises(w) => RaiseStep(s, w)
    case CommitEvaluation(w, result) => CommitStep(g, s, w, result)
    case Complete(w) => CompleteStep(s, w)
    case RecordFailure(w, text) => FailStep(s, w, text)
    case WorkerDies(w) => s.(workers := s.workers - {w})
    case RequestBegins(_, _) | RequestCommits(_, _) | RequestEnds(_) => RequestStep(g, s, event)
  }

  /** The state after a sequence of events. */
  function Run(g: Grids, events: seq<Event>): State {
    if events == [] then INITIAL else Step(g, Run(g, events[..|events| - 1]), events[|events| - 1])
  }

  // ----- The invariant -----

  ghost predicate HasResult(store: Store, e: string) {
    exists r :: r in store.results && store.results[r] == e
  }

  /** All or nothing: the keys of an experiment are its whole grid, with one result, or none. */
  ghost predicate StoreInv(g: Grids, store: Store) {
    && (forall r :: r in store.results ==> store.results[r] in g && g[store.results[r]] <= store.keys)
    && (forall r, r' :: r in store.results && r' in store.results && store.results[r] == store.results[r'] ==> r == r')
    && (forall k :: k in store.keys ==>
          k.experimentId in g && k in g[k.experimentId] && HasResult(store, k.experimentId))
    && store.owners.Keys == store.results.Keys
  }

  /** The moves the life cycle allows. */
  predicate Follows(from: JobStatus, to: JobStatus) {
    (from == Queued && (to == Running || to == Failed)) || (from == Running && (to == Completed || to == Failed))
  }

  /** A history starts queued and makes only allowed moves. */
  predicate Lawful(h: seq<JobStatus>) {
    h != [] && h[0] == Queued && forall i :: 0 < i < |h| ==> Follows(h[i - 1], h[i])
  }

  /** One job row is valid, its times have passed, and its status is the end of a lawful history. */
  predicate RowOk(g: Grids, job: AsyncJob, h: seq<JobStatus>, j: string, now: int) {
    && job.Valid() && Past(job, now) && job.id == j && job.experimentId in g
    && Lawful(h) && h[|h| - 1] == job.status
  }

  ghost predicate RowsInv(g: Grids, rows: Rows, now: int) {
    && rows.histories.Keys == rows.jobs.Keys
    && forall j :: j in rows.jobs ==> RowOk(g, rows.jobs[j], rows.histories[j], j, now)
  }

  /** Messages and workers only concern jobs that exist and were sent. */
  ghost predicate QueueInv(rows: Rows, queue: multiset<string>, sent: set<string>, workers: Workers) {
    && sent <= rows.jobs.Keys
    && (forall j :: j in queue ==> j in sent)
    && (forall w :: w in workers ==> workers[w].job in sent)
  }

  predicate ActiveOn(workers: Workers, w: nat, j: string) {
    w in workers && workers[w].Active() && workers[w].job == j
  }

  /** A job with an active worker has been started, and has no other active worker. */
  ghost predicate WorkerInv(rows: Rows, workers: Workers) {
    && (forall w, j :: ActiveOn(workers, w, j) ==> rows.Ran(j))
    && (forall w, w', j :: ActiveOn(workers, w, j) && ActiveOn(workers, w', j) ==> w == w')
  }

  ghost predicate EnqueuerInv(rows: Rows, enqueuers: map<string, Enqueuer>, sent: set<string>, ambiguous: set<string>) {
    && (forall j :: j in enqueuers ==> j in rows.jobs)
    && (forall j :: j in enqueuers && enqueuers[j].Dispatching? ==> j !in sent)
    && (forall j :: j in enqueuers && enqueuers[j].Failing? && j in sent ==> j in ambiguous)
  }

  /** An evaluation begins at most once for a job, and not while its worker has yet to begin one. */
  ghost predicate EvaluationInv(rows: Rows, workers: Workers, evaluations: multiset<string>) {
    && (forall j :: evaluations[j] <= 1)
    && (forall j :: j in evaluations ==> j in rows.jobs && !rows.Is(j, Queued))
    && (forall w :: w in workers && workers[w].Started? ==> workers[w].job !in evaluations)
  }

  predicate OwnedBy(store: Store, r: string, j: string) { r in store.owners && store.owners[r] == ByJob(j) }

  /** A job that committed a result is of that result's experiment, was sent and started; if it failed
      all the same, it is excused. */
  ghost predicate OwnerInv(store: Store, rows: Rows, sent: set<string>, excused: set<string>) {
    && store.owners.Keys == store.results.Keys
    && (forall r, j :: OwnedBy(store, r, j) ==>
          j in sent && j in rows.jobs && rows.jobs[j].experimentId == store.results[r])
    && (forall r, j :: OwnedBy(store, r, j) ==> rows.Ran(j))
    && (forall r, j :: OwnedBy(store, r, j) && rows.Is(j, Failed) ==> j in excused)
    && (forall j :: rows.Is(j, Completed) ==>
          rows.jobs[j].evaluationResultId.Some? && OwnedBy(store, rows.jobs[j].evaluationResultId.value, j))
  }

  /** The active worker of a job that committed a result is the one that committed it, and still knows
      unless it raised since. */
  ghost predicate HolderInv(store: Store, workers: Workers, late: set<string>) {
    && (forall r, w, j :: ActiveOn(workers, w, j) && OwnedBy(store, r, j) ==> workers[w].Committed? || j in late)
    && (forall w :: w in workers && workers[w].Committed? ==> OwnedBy(store, workers[w].result, workers[w].job))
  }

  /** A job that is failed while a worker is active on it had an ambiguous dispatch. */
  ghost predicate OverruledInv(rows: Rows, workers: Workers, ambiguous: set<string>) {
    forall w, j :: ActiveOn(workers, w, j) && rows.Is(j, Failed) ==> j in ambiguous
  }

  /** The parts of the invariant. */
  datatype Part = StoreRows | JobRows | Messages | Activity | Enqueuing | Evaluations | Ownership | Holding | Overruling

  ghost predicate PartInv(g: Grids, s: State, part: Part) {
    match part
    case StoreRows => StoreInv(g, s.store)
    case JobRows => RowsInv(g, s.rows, s.now)
    case Messages => QueueInv(s.rows, s.queue, s.sent, s.workers)
    case Activity => WorkerInv(s.rows, s.workers)
    case Enqueuing => EnqueuerInv(s.rows, s.enqueuers, s.sent, s.ambiguous)
    case Evaluations => EvaluationInv(s.rows, s.workers, s.evaluations)
    case Ownership => OwnerInv(s.store, s.rows, s.sent, s.Excused())
    case Holding => HolderInv(s.store, s.workers, s.late)
    case Overruling => OverruledInv(s.rows, s.workers, s.ambiguous)
  }

  ghost predicate Inv(g: Grids, s: State) {
    forall part: Part :: PartInv(g, s, part)
  }

  lemma Open(g: Grids, s: State)
    requires Inv(g, s)
    ensures StoreInv(g, s.store) && RowsInv(g, s.rows, s.now)
    ensures QueueInv(s.rows, s.queue, s.sent, s.workers) && WorkerInv(s.rows, s.workers)
    ensures EnqueuerInv(s.rows, s.enqueuers, s.sent, s.ambiguous)
    ensures EvaluationInv(s.rows, s.workers, s.evaluations)
    ensures OwnerInv(s.store, s.rows, s.sent, s.Excused()) && HolderInv(s.store, s.workers, s.late)
    ensures OverruledInv(s.rows, s.workers, s.ambiguous)
  {
    assert PartInv(g, s, StoreRows) && PartInv(g, s, JobRows) && PartInv(g, s, Messages);
    assert PartInv(g, s, Activity) && PartInv(g, s, Enqueuing) && PartInv(g, s, Evaluations);
    assert PartInv(g, s, Ownership) && PartInv(g, s, Holding) && PartInv(g, s, Overruling);
  }

  // ----- Committing to the store -----

  lemma NotYetCommitted(g: Grids, store: Store, e: string, result: string)
    requires ValidGrids(g) && StoreInv(g, store) && CanCommit(g, store, e, result)
    ensures !HasResult(store, e)
  {
    assert exists k :: k in g[e];
  }

  lemma CommitKeepsStore(g: Grids, store: Store, e: string, result: string, owner: Owner)
    requires ValidGrids(g) && StoreInv(g, store) && CanCommit(g, store, e, result)
    ensures StoreInv(g, Commit(g, store, e, result, owner))
  {
    var store' := Commit(g, store, e, result, owner);
    NotYetCommitted(g, store, e, result);
    forall k | k in store'.keys
      ensures k.experimentId in g && k in g[k.experimentId] && HasResult(store', k.experimentId)
    {
      if k in store.keys {
        var r :| r in store.results && store.results[r] == k.experimentId;
        assert store'.results[r] == k.experimentId;
      } else {
        assert store'.results[result] == k.experimentId;
      }
    }
  }

  // ----- Moving a job row -----

  /** From `rows` to `rows'`: job `j` moved to `status`, and nothing else changed. */
  ghost predicate Moved(rows: Rows, rows': Rows, j: string, status: JobStatus) {
    && j in rows.jobs && Follows(rows.jobs[j].status, status)
    && rows'.jobs.Keys == rows.jobs.Keys
    && (forall i :: i in rows.jobs && i != j ==> rows'.jobs[i] == rows.jobs[i])
    && rows'.jobs[j].status == status && rows'.jobs[j].experimentId == rows.jobs[j].experimentId
    && (forall i :: rows.Ran(i) ==> rows'.Ran(i)) && (status == Running ==> rows'.Ran(j))
  }

  lemma {:induction false} LawfulSnoc(h: seq<JobStatus>, status: JobStatus)
    requires Lawful(h) && Follows(h[|h| - 1], status)
    ensures Lawful(h + [status])
  {
  }

  lemma MarkMoves(rows: Rows, j: string, job: AsyncJob, status: JobStatus)
    requires j in rows.jobs && j in rows.histories && Lawful(rows.histories[j])
    requires rows.histories[j][|rows.histories[j]| - 1] == rows.jobs[j].status && Follows(rows.jobs[j].status, status)
    requires job.status == status && job.experimentId == rows.jobs[j].experimentId
    ensures Moved(rows, Rows(rows.jobs[j := job], rows.histories[j := rows.histories[j] + [status]]), j, status)
  {
    StillRan(rows, j, job, status);
  }

  lemma MarkKeepsRows(g: Grids, rows: Rows, now: int, j: string, r: Result<AsyncJob>, status: JobStatus)
    requires RowsInv(g, rows, now) && j in rows.jobs
    requires r.Ok? && Becomes(rows.jobs[j], r.value, status, now) && Follows(rows.jobs[j].status, status)
    ensures Moved(rows, Mark(rows, j, r), j, status) && RowsInv(g, Mark(rows, j, r), now)
  {
    assert RowOk(g, rows.jobs[j], rows.histories[j], j, now);
    LawfulSnoc(rows.histories[j], status);
    assert RowOk(g, r.value, rows.histories[j] + [status], j, now);
    MarkMoves(rows, j, r.value, status);
    RowSet(g, rows, now, j, r.value, rows.histories[j] + [status]);
  }

  lemma StillRan(rows: Rows, j: string, job: AsyncJob, status: JobStatus)
    requires j in rows.histories && Lawful(rows.histories[j]) && job.status == status
    requires Follows(rows.histories[j][|rows.histories[j]| - 1], status)
    ensures var rows' := Rows(rows.jobs[j := job], rows.histories[j := rows.histories[j] + [status]]);
            (forall i :: rows.Ran(i) ==> rows'.Ran(i)) && (status == Running ==> rows'.Ran(j))
  {
    var h := rows.histories[j];
    assert |h| > 1 ==> Follows(h[|h| - 2], h[|h| - 1]);
  }

  lemma RowSet(g: Grids, rows: Rows, now: int, j: string, job: AsyncJob, h: seq<JobStatus>)
    requires RowsInv(g, rows, now) && RowOk(g, job, h, j, now)
    ensures RowsInv(g, Rows(rows.jobs[j := job], rows.histories[j := h]), now)
  {
    var rows' := Rows(rows.jobs[j := job], rows.histories[j := h]);
    forall i | i in rows'.jobs
      ensures RowOk(g, rows'.jobs[i], rows'.histories[i], i, now)
    {
      if i != j {
        assert RowOk(g, rows.jobs[i], rows.histories[i], i, now);
      }
    }
  }

  /** What each transition does to the rows when it comes from a process of the system. */
  lemma RunningMoves(g: Grids, rows: Rows, now: int, j: string, taskId: Option<string>)
    requires RowsInv(g, rows, now) && j in rows.jobs
    ensures var r := MarkRunning(rows.jobs[j], taskId, now);
            && (r.Ok? <==> rows.Is(j, Queued))
            && (r.Ok? ==> Moved(rows, Mark(rows, j, r), j, Running) && RowsInv(g, Mark(rows, j, r), now))
  {
    assert RowOk(g, rows.jobs[j], rows.histories[j], j, now);
    TransitionsTotal(rows.jobs[j], taskId, "", "", now);
    if rows.Is(j, Queued) {
      MarkKeepsRows(g, rows, now, j, MarkRunning(rows.jobs[j], taskId, now), Running);
    }
  }

  lemma CompletedMoves(g: Grids, rows: Rows, now: int, j: string, result: string)
    requires RowsInv(g, rows, now) && j in rows.jobs
    ensures var r := MarkCompleted(rows.jobs[j], result, now);
            && (r.Ok? <==> rows.Is(j, Running))
            && (r.Ok? ==> Moved(rows, Mark(rows, j, r), j, Completed) && RowsInv(g, Mark(rows, j, r), now)
                          && Mark(rows, j, r).jobs[j].evaluationResultId == Some(result))
  {
    assert RowOk(g, rows.jobs[j], rows.histories[j], j, now);
    TransitionsTotal(rows.jobs[j], None, result, "", now);
    if rows.Is(j, Running) {
      MarkKeepsRows(g, rows, now, j, MarkCompleted(rows.jobs[j], result, now), Completed);
    }
  }

  lemma FailedMoves(g: Grids, rows: Rows, now: int, j: string, text: string)
    requires RowsInv(g, rows, now) && j in rows.jobs
    ensures var r := MarkFailed(rows.jobs[j], text, now);
            && (r.Ok? <==> rows.Is(j, Queued) || rows.Is(j, Running))
            && (r.Ok? ==> Moved(rows, Mark(rows, j, r), j, Failed) && RowsInv(g, Mark(rows, j, r), now))
  {
    assert RowOk(g, rows.jobs[j], rows.histories[j], j, now);
    TransitionsTotal(rows.jobs[j], None, "", text, now);
    if !rows.jobs[j].status.Terminal() {
      MarkKeepsRows(g, rows, now, j, MarkFailed(rows.jobs[j], text, now), Failed);
    }
  }

  /** Moving a row disturbs none of the parts that only ask which jobs exist or have left the queue. */
  lemma MoveKeepsActors(rows: Rows, rows': Rows, j: string, status: JobStatus, s: State)
    requires Moved(rows, rows', j, status) && s.rows == rows
    ensures QueueInv(rows, s.queue, s.sent, s.workers) ==> QueueInv(rows', s.queue, s.sent, s.workers)
    ensures WorkerInv(rows, s.workers) ==> WorkerInv(rows', s.workers)
    ensures EnqueuerInv(rows, s.enqueuers, s.sent, s.ambiguous) ==> EnqueuerInv(rows', s.enqueuers, s.sent, s.ambiguous)
    ensures EvaluationInv(rows, s.workers, s.evaluations) ==> EvaluationInv(rows', s.workers, s.evaluations)
  {
    assert forall i :: rows'.Is(i, Queued) ==> rows.Is(i, Queued);
  }

  // ----- Every step keeps the invariant -----

  lemma TickKeeps(g: Grids, s: State, d: nat)
    requires Inv(g, s)
    ensures Inv(g, Step(g, s, Tick(d)))
  {
    Open(g, s);
    forall j | j in s.rows.jobs
      ensures RowOk(g, s.rows.jobs[j], s.rows.histories[j], j, s.now + d)
    {
      assert RowOk(g, s.rows.jobs[j], s.rows.histories[j], j, s.now);
    }
  }

  /** From `rows` to `rows'`: job `j` is new, and queued. */
  ghost predicate Created(rows: Rows, rows': Rows, j: string) {
    && j !in rows.jobs && rows'.jobs.Keys == rows.jobs.Keys + {j}
    && (forall i :: i in rows.jobs ==> rows'.jobs[i] == rows.jobs[i])
    && rows'.jobs[j].status == Queued
    && (forall i :: rows.Ran(i) ==> rows'.Ran(i))
  }

  lemma CreatedKeepsQueue(
    rows: Rows, rows': Rows, j: string, queue: multiset<string>, sent: set<string>, workers: Workers)
    requires Created(rows, rows', j) && QueueInv(rows, queue, sent, workers)
    ensures QueueInv(rows', queue, sent, workers)
  {
  }

  lemma CreatedKeepsWorkers(
    rows: Rows, rows': Rows, j: string, queue: multiset<string>, sent: set<string>, workers: Workers)
    requires Created(rows, rows', j) && QueueInv(rows, queue, sent, workers) && WorkerInv(rows, workers)
    ensures WorkerInv(rows', workers)
  {
  }

  lemma CreatedKeepsEvaluations(rows: Rows, rows': Rows, j: string, workers: Workers, evaluations: multiset<string>)
    requires Created(rows, rows', j) && EvaluationInv(rows, workers, evaluations)
    ensures EvaluationInv(rows', workers, evaluations)
  {
  }

  lemma CreatedKeepsOwners(store: Store, rows: Rows, rows': Rows, j: string, sent: set<string>, excused: set<string>)
    requires Created(rows, rows', j) && OwnerInv(store, rows, sent, excused)
    ensures OwnerInv(store, rows', sent, excused)
  {
    forall r, i | OwnedBy(store, r, i)
      ensures i in rows'.jobs && rows'.jobs[i] == rows.jobs[i]
    {
      assert i in rows.jobs;
    }
    forall i | rows'.Is(i, Completed)
      ensures rows.Is(i, Completed) && rows'.jobs[i] == rows.jobs[i]
    {
      assert i != j;
    }
  }

  lemma CreatedKeepsRows(g: Grids, rows: Rows, now: int, j: string, e: string)
    requires RowsInv(g, rows, now) && j !in rows.jobs && e in g && NewJob(j, e, now).Valid()
    ensures var rows' := Rows(rows.jobs[j := NewJob(j, e, now)], rows.histories[j := [Queued]]);
            RowsInv(g, rows', now) && Created(rows, rows', j)
  {
    assert RowOk(g, NewJob(j, e, now), [Queued], j, now);
    RowSet(g, rows, now, j, NewJob(j, e, now), [Queued]);
  }

  lemma CreatedKeepsEnqueuers(
    rows: Rows, rows': Rows, j: string, enqueuers: map<string, Enqueuer>, sent: set<string>, ambiguous: set<string>)
    requires Created(rows, rows', j) && EnqueuerInv(rows, enqueuers, sent, ambiguous) && j !in sent
    ensures EnqueuerInv(rows', enqueuers[j := Dispatching], sent, ambiguous)
  {
  }

  lemma CreatedKeepsOverruled(rows: Rows, rows': Rows, j: string, workers: Workers, ambiguous: set<string>)
    requires Created(rows, rows', j) && OverruledInv(rows, workers, ambiguous)
    ensures OverruledInv(rows', workers, ambiguous)
  {
    assert forall i :: rows'.Is(i, Failed) ==> rows.Is(i, Failed);
  }

  /** A row is created in a state that keeps the invariant. */
  lemma RowCreated(g: Grids, s: State, rows': Rows, j: string)
    requires Inv(g, s) && Created(s.rows, rows', j) && RowsInv(g, rows', s.now)
    ensures Inv(g, s.(rows := rows', enqueuers := s.enqueuers[j := Dispatching]))
  {
    Open(g, s);
    CreatedKeepsQueue(s.rows, rows', j, s.queue, s.sent, s.workers);
    CreatedKeepsWorkers(s.rows, rows', j, s.queue, s.sent, s.workers);
    CreatedKeepsEnqueuers(s.rows, rows', j, s.enqueuers, s.sent, s.ambiguous);
    CreatedKeepsEvaluations(s.rows, rows', j, s.workers, s.evaluations);
    CreatedKeepsOwners(s.store, s.rows, rows', j, s.sent, s.Excused());
    CreatedKeepsOverruled(s.rows, rows', j, s.workers, s.ambiguous);
  }

  lemma EnqueueKeeps(g: Grids, s: State, j: string, e: string)
    requires Inv(g, s)
    ensures Inv(g, EnqueueStep(g, s, j, e))
  {
    if j !in s.rows.jobs && e in g && NewJob(j, e, s.now).Valid() {
      Open(g, s);
      CreatedKeepsRows(g, s.rows, s.now, j, e);
      RowCreated(g, s, Rows(s.rows.jobs[j := NewJob(j, e, s.now)], s.rows.histories[j := [Queued]]), j);
    }
  }

  lemma QueueMore(rows: Rows, queue: multiset<string>, sent: set<string>, workers: Workers, j: string)
    requires QueueInv(rows, queue, sent, workers) && j in rows.jobs
    ensures QueueInv(rows, queue + multiset{j}, sent + {j}, workers)
  {
  }

  lemma QueueLess(rows: Rows, queue: multiset<string>, sent: set<string>, workers: Workers, j: string)
    requires QueueInv(rows, queue, sent, workers)
    ensures QueueInv(rows, queue - multiset{j}, sent, workers)
  {
  }

  lemma SentKeepsEnqueuers(
    rows: Rows, enqueuers: map<string, Enqueuer>, sent: set<string>, ambiguous: set<string>, j: string)
    requires EnqueuerInv(rows, enqueuers, sent, ambiguous) && j in enqueuers
    ensures EnqueuerInv(rows, enqueuers[j := Sent], sent + {j}, ambiguous)
  {
  }

  lemma RaisedKeepsEnqueuers(
    rows: Rows, enqueuers: map<string, Enqueuer>, sent: set<string>, ambiguous: set<string>, j: string)
    requires EnqueuerInv(rows, enqueuers, sent, ambiguous) && j in enqueuers && !enqueuers[j].Failing?
    ensures EnqueuerInv(rows, enqueuers[j := Failing], sent, if enqueuers[j].Sent? then ambiguous + {j} else ambiguous)
  {
  }

  lemma MoreSent(
    store: Store, rows: Rows, sent: set<string>, sent': set<string>, excused: set<string>, excused': set<string>)
    requires OwnerInv(store, rows, sent, excused) && sent <= sent' && excused <= excused'
    ensures OwnerInv(store, rows, sent', excused')
  {
  }

  lemma MoreAmbiguous(rows: Rows, workers: Workers, ambiguous: set<string>, ambiguous': set<string>)
    requires OverruledInv(rows, workers, ambiguous) && ambiguous <= ambiguous'
    ensures OverruledInv(rows, workers, ambiguous')
  {
  }

  lemma SendKeeps(g: Grids, s: State, j: string)
    requires Inv(g, s) && j in s.enqueuers && s.enqueuers[j].Dispatching?
    ensures Inv(g, EnqueuerStep(s, Send(j)))
  {
    Open(g, s);
    QueueMore(s.rows, s.queue, s.sent, s.workers, j);
    SentKeepsEnqueuers(s.rows, s.enqueuers, s.sent, s.ambiguous, j);
    MoreSent(s.store, s.rows, s.sent, s.sent + {j}, s.Excused(), s.Excused());
  }

  lemma RaisesKeeps(g: Grids, s: State, j: string)
    requires Inv(g, s) && j in s.enqueuers && !s.enqueuers[j].Failing?
    ensures Inv(g, EnqueuerStep(s, DispatchRaises(j)))
  {
    Open(g, s);
    RaisedKeepsEnqueuers(s.rows, s.enqueuers, s.sent, s.ambiguous, j);
    if s.enqueuers[j].Sent? {
      AmbiguityKeeps(g, s, s.enqueuers[j := Failing], s.ambiguous + {j});
    } else {
      AmbiguityKeeps(g, s, s.enqueuers[j := Failing], s.ambiguous);
    }
  }

  lemma AmbiguityKeeps(g: Grids, s: State, enqueuers: map<string, Enqueuer>, ambiguous: set<string>)
    requires Inv(g, s) && s.ambiguous <= ambiguous && EnqueuerInv(s.rows, enqueuers, s.sent, ambiguous)
    ensures Inv(g, s.(enqueuers := enqueuers, ambiguous := ambiguous))
  {
    Open(g, s);
    MoreSent(s.store, s.rows, s.sent, s.sent, s.Excused(), ambiguous + s.late);
    MoreAmbiguous(s.rows, s.workers, s.ambiguous, ambiguous);
  }

  lemma EnqueuerLeaves(g: Grids, s: State, j: string)
    requires Inv(g, s)
    ensures Inv(g, s.(enqueuers := s.enqueuers - {j}))
  {
    Open(g, s);
    assert EnqueuerInv(s.rows, s.enqueuers - {j}, s.sent, s.ambiguous);
  }

  lemma EnqueuerKeeps(g: Grids, s: State, event: Event)
    requires Inv(g, s)
    ensures Inv(g, EnqueuerStep(s, event))
  {
    match event
    case Send(j) =>
      if j in s.enqueuers && s.enqueuers[j].Dispatching? {
        SendKeeps(g, s, j);
      }
    case DispatchReturns(j) => EnqueuerLeaves(g, s, j);
    case DispatchRaises(j) =>
      if j in s.enqueuers && !s.enqueuers[j].Failing? {
        RaisesKeeps(g, s, j);
      }
    case EnqueuerDies(j) => EnqueuerLeaves(g, s, j);
    case _ =>
  }

  // ----- Setting one worker, part by part -----

  lemma SetKeepsQueue(rows: Rows, queue: multiset<string>, sent: set<string>, workers: Workers, w: nat, phase: Worker)
    requires QueueInv(rows, queue, sent, workers) && phase.job in sent
    ensures QueueInv(rows, queue, sent, workers[w := phase])
  {
  }

  /** A worker that has only received a message is no one's active worker. */
  lemma ReceivedIsPassive(workers: Workers, w: nat, j: string)
    requires w !in workers
    ensures forall v, i :: ActiveOn(workers[w := Received(j)], v, i) <==> ActiveOn(workers, v, i)
  {
  }

  /** The active worker of a job keeps being its active worker. */
  lemma SameActive(workers: Workers, w: nat, phase: Worker)
    requires w in workers && workers[w].Active() && phase.Active() && phase.job == workers[w].job
    ensures forall v, i :: ActiveOn(workers[w := phase], v, i) <==> ActiveOn(workers, v, i)
  {
  }

  ghost predicate SameActivity(workers: Workers, workers': Workers) {
    forall v, i :: ActiveOn(workers', v, i) <==> ActiveOn(workers, v, i)
  }

  lemma SameActivityKeepsWorkers(rows: Rows, workers: Workers, workers': Workers, ambiguous: set<string>)
    requires WorkerInv(rows, workers) && OverruledInv(rows, workers, ambiguous) && SameActivity(workers, workers')
    ensures WorkerInv(rows, workers') && OverruledInv(rows, workers', ambiguous)
  {
  }

  lemma SetKeepsEvaluations(rows: Rows, workers: Workers, evaluations: multiset<string>, w: nat, phase: Worker)
    requires EvaluationInv(rows, workers, evaluations) && (phase.Started? ==> phase.job !in evaluations)
    ensures EvaluationInv(rows, workers[w := phase], evaluations)
  {
  }

  lemma SetKeepsHolders(
    store: Store, workers: Workers, late: set<string>, late': set<string>, w: nat, phase: Worker)
    requires HolderInv(store, workers, late) && late <= late' && !phase.Committed?
    requires phase.Active() ==> phase.job in late' || forall r :: !OwnedBy(store, r, phase.job)
    ensures HolderInv(store, workers[w := phase], late')
  {
    var workers' := workers[w := phase];
    forall r, v, i | ActiveOn(workers', v, i) && OwnedBy(store, r, i)
      ensures workers'[v].Committed? || i in late'
    {
      assert v == w || ActiveOn(workers, v, i);
    }
  }

  lemma ReceiveKeeps(g: Grids, s: State, w: nat, j: string)
    requires Inv(g, s) && j in s.queue && w !in s.workers
    ensures Inv(g, BrokerStep(s, Receive(w, j)))
  {
    Open(g, s);
    var workers := s.workers[w := Received(j)];
    QueueLess(s.rows, s.queue, s.sent, s.workers, j);
    SetKeepsQueue(s.rows, s.queue - multiset{j}, s.sent, s.workers, w, Received(j));
    ReceivedIsPassive(s.workers, w, j);
    SameActivityKeepsWorkers(s.rows, s.workers, workers, s.ambiguous);
    SetKeepsEvaluations(s.rows, s.workers, s.evaluations, w, Received(j));
    SetKeepsHolders(s.store, s.workers, s.late, s.late, w, Received(j));
  }

  lemma QueueKeeps(g: Grids, s: State, queue: multiset<string>)
    requires Inv(g, s) && QueueInv(s.rows, queue, s.sent, s.workers)
    ensures Inv(g, s.(queue := queue))
  {
    Open(g, s);
  }

  lemma DuplicateKeeps(g: Grids, s: State, j: string)
    requires Inv(g, s) && j in s.sent
    ensures Inv(g, s.(queue := s.queue + multiset{j}))
  {
    Open(g, s);
    QueueMore(s.rows, s.queue, s.sent, s.workers, j);
    assert s.sent + {j} == s.sent;
    QueueKeeps(g, s, s.queue + multiset{j});
  }

  lemma LoseKeeps(g: Grids, s: State, j: string)
    requires Inv(g, s)
    ensures Inv(g, s.(queue := s.queue - multiset{j}))
  {
    Open(g, s);
    QueueLess(s.rows, s.queue, s.sent, s.workers, j);
    QueueKeeps(g, s, s.queue - multiset{j});
  }

  lemma BrokerKeeps(g: Grids, s: State, event: Event)
    requires Inv(g, s)
    ensures Inv(g, BrokerStep(s, event))
  {
    match event
    case Duplicate(j) =>
      if j in s.sent {
        DuplicateKeeps(g, s, j);
      }
    case Lose(j) => LoseKeeps(g, s, j);
    case Receive(w, j) =>
      if j in s.queue && w !in s.workers {
        ReceiveKeeps(g, s, w, j);
      }
    case _ =>
  }

  /** Removing a worker disturbs nothing. */
  lemma DropKeeps(g: Grids, s: State, w: nat)
    requires Inv(g, s)
    ensures Inv(g, s.(workers := s.workers - {w}))
  {
    Open(g, s);
    DropKeepsMessages(s.rows, s.queue, s.sent, s.workers, w);
    DropKeepsActivity(s.rows, s.workers, s.ambiguous, w);
    DropKeepsEvaluations(s.rows, s.workers, s.evaluations, w);
    DropKeepsHolders(s.store, s.workers, s.late, w);
  }

  lemma DropKeepsMessages(rows: Rows, queue: multiset<string>, sent: set<string>, workers: Workers, w: nat)
    requires QueueInv(rows, queue, sent, workers)
    ensures QueueInv(rows, queue, sent, workers - {w})
  {
  }

  lemma DropActive(workers: Workers, w: nat)
    ensures forall v, j :: ActiveOn(workers - {w}, v, j) <==> v != w && ActiveOn(workers, v, j)
  {
  }

  lemma DropKeepsActivity(rows: Rows, workers: Workers, ambiguous: set<string>, w: nat)
    requires WorkerInv(rows, workers) && OverruledInv(rows, workers, ambiguous)
    ensures WorkerInv(rows, workers - {w}) && OverruledInv(rows, workers - {w}, ambiguous)
  {
    DropActive(workers, w);
  }

  lemma DropKeepsEvaluations(rows: Rows, workers: Workers, evaluations: multiset<string>, w: nat)
    requires EvaluationInv(rows, workers, evaluations)
    ensures EvaluationInv(rows, workers - {w}, evaluations)
  {
  }

  lemma DropKeepsHolders(store: Store, workers: Workers, late: set<string>, w: nat)
    requires HolderInv(store, workers, late)
    ensures HolderInv(store, workers - {w}, late)
  {
    DropActive(workers, w);
    var workers' := workers - {w};
    forall v | v in workers' && workers'[v].Committed?
      ensures OwnedBy(store, workers'[v].result, workers'[v].job)
    {
      assert v in workers;
    }
  }

  lemma StartKeeps(g: Grids, s: State, w: nat, taskId: Option<string>)
    requires Inv(g, s)
    ensures Inv(g, StartStep(s, w, taskId))
  {
    Open(g, s);
    if w in s.workers && s.workers[w].Received? {
      var j := s.workers[w].job;
      RunningMoves(g, s.rows, s.now, j, taskId);
      if MarkRunning(s.rows.jobs[j], taskId, s.now).Err? {
        DropKeeps(g, s, w);
      } else {
        var rows := Mark(s.rows, j, MarkRunning(s.rows.jobs[j], taskId, s.now));
        QueuedIsIdle(s, j);
        RowMoves(g, s, rows, j, Running);
        ActivateKeeps(g, s.(rows := rows), w, j);
      }
    }
  }

  /** Nothing has been done for a job that is still queued. */
  lemma QueuedIsIdle(s: State, j: string)
    requires WorkerInv(s.rows, s.workers) && EvaluationInv(s.rows, s.workers, s.evaluations)
    requires OwnerInv(s.store, s.rows, s.sent, s.Excused()) && s.rows.Is(j, Queued)
    ensures (forall w :: !ActiveOn(s.workers, w, j)) && (forall r :: !OwnedBy(s.store, r, j)) && j !in s.evaluations
  {
  }

  /** A worker starts on a job on which no worker is active. */
  lemma ActivateKeeps(g: Grids, s: State, w: nat, j: string)
    requires Inv(g, s) && w in s.workers && s.workers[w] == Received(j)
    requires s.rows.Is(j, Running) && s.rows.Ran(j) && j !in s.evaluations
    requires forall v :: !ActiveOn(s.workers, v, j)
    requires forall r :: !OwnedBy(s.store, r, j)
    ensures Inv(g, s.(workers := s.workers[w := Started(j)]))
  {
    Open(g, s);
    assert s.workers[w].job in s.sent;
    SetKeepsQueue(s.rows, s.queue, s.sent, s.workers, w, Started(j));
    NewActivity(s.rows, s.workers, s.ambiguous, w, j);
    SetKeepsEvaluations(s.rows, s.workers, s.evaluations, w, Started(j));
    SetKeepsHolders(s.store, s.workers, s.late, s.late, w, Started(j));
  }

  lemma NewActivity(rows: Rows, workers: Workers, ambiguous: set<string>, w: nat, j: string)
    requires WorkerInv(rows, workers) && OverruledInv(rows, workers, ambiguous)
    requires rows.Is(j, Running) && rows.Ran(j) && forall v :: !ActiveOn(workers, v, j)
    ensures WorkerInv(rows, workers[w := Started(j)]) && OverruledInv(rows, workers[w := Started(j)], ambiguous)
  {
    var workers' := workers[w := Started(j)];
    assert forall v, i :: ActiveOn(workers', v, i) ==> (v != w && ActiveOn(workers, v, i)) || (v == w && i == j);
  }

  /** Results keep belonging to their jobs; a job that fails must own none, or be excused, and a job
      that completes must link one of its own. */
  lemma MoveKeepsOwners(
    store: Store, rows: Rows, rows': Rows, j: string, status: JobStatus, sent: set<string>, excused: set<string>)
    requires OwnerInv(store, rows, sent, excused) && Moved(rows, rows', j, status)
    requires status == Failed ==> j in excused || forall r :: !OwnedBy(store, r, j)
    requires status == Completed ==>
               rows'.jobs[j].evaluationResultId.Some? && OwnedBy(store, rows'.jobs[j].evaluationResultId.value, j)
    ensures OwnerInv(store, rows', sent, excused)
  {
    forall r, i | OwnedBy(store, r, i)
      ensures i in rows'.jobs && rows'.jobs[i].experimentId == store.results[r]
      ensures rows'.Ran(i)
      ensures rows'.Is(i, Failed) ==> i in excused
    {
      assert i in rows.jobs && rows.jobs[i].experimentId == store.results[r] && rows.Ran(i);
    }
    forall i | rows'.Is(i, Completed)
      ensures rows'.jobs[i].evaluationResultId.Some? && OwnedBy(store, rows'.jobs[i].evaluationResultId.value, i)
    {
      if i != j {
        assert rows.Is(i, Completed);
      }
    }
  }

  lemma DispatchFailureKeeps(g: Grids, s: State, j: string, text: string)
    requires Inv(g, s)
    ensures Inv(g, DispatchFailureStep(s, j, text))
  {
    if j in s.enqueuers && s.enqueuers[j].Failing? {
      Open(g, s);
      FailingIsAmbiguous(s, j);
      EnqueuerLeaves(g, s, j);
      FailureKeeps(g, s.(enqueuers := s.enqueuers - {j}), j, text);
    }
  }

  /** A job is failed that owns no result or is excused, and has no active worker or was ambiguous. */
  lemma FailureKeeps(g: Grids, s: State, j: string, text: string)
    requires Inv(g, s) && j in s.rows.jobs
    requires j in s.Excused() || forall r :: !OwnedBy(s.store, r, j)
    requires j in s.ambiguous || forall w :: !ActiveOn(s.workers, w, j)
    ensures Inv(g, s.(rows := Mark(s.rows, j, MarkFailed(s.rows.jobs[j], text, s.now))))
  {
    Open(g, s);
    FailedMoves(g, s.rows, s.now, j, text);
    var r := MarkFailed(s.rows.jobs[j], text, s.now);
    if r.Ok? {
      RowMoves(g, s, Mark(s.rows, j, r), j, Failed);
    }
  }

  /** A job whose dispatch is known to have failed was ambiguous, or has neither worker nor result. */
  lemma FailingIsAmbiguous(s: State, j: string)
    requires QueueInv(s.rows, s.queue, s.sent, s.workers) && EnqueuerInv(s.rows, s.enqueuers, s.sent, s.ambiguous)
    requires OwnerInv(s.store, s.rows, s.sent, s.Excused())
    requires j in s.enqueuers && s.enqueuers[j].Failing?
    ensures j in s.ambiguous || ((forall r :: !OwnedBy(s.store, r, j)) && forall w :: !ActiveOn(s.workers, w, j))
  {
  }

  lemma MoveKeepsOverruled(
    rows: Rows, rows': Rows, j: string, status: JobStatus, workers: Workers, ambiguous: set<string>)
    requires OverruledInv(rows, workers, ambiguous) && Moved(rows, rows', j, status)
    requires status == Failed ==> j in ambiguous || forall w :: !ActiveOn(workers, w, j)
    ensures OverruledInv(rows', workers, ambiguous)
  {
  }

  /** What moving an active worker on to a later phase leaves as it was. */
  lemma PhaseKeepsActors(g: Grids, s: State, w: nat, phase: Worker)
    requires Inv(g, s) && w in s.workers && s.workers[w].Active()
    requires phase.job == s.workers[w].job && phase.Active() && !phase.Started?
    ensures var workers := s.workers[w := phase];
            && QueueInv(s.rows, s.queue, s.sent, workers) && WorkerInv(s.rows, workers)
            && EvaluationInv(s.rows, workers, s.evaluations) && OverruledInv(s.rows, workers, s.ambiguous)
  {
    Open(g, s);
    assert s.workers[w].job in s.sent;
    SetKeepsQueue(s.rows, s.queue, s.sent, s.workers, w, phase);
    SameActive(s.workers, w, phase);
    SameActivityKeepsWorkers(s.rows, s.workers, s.workers[w := phase], s.ambiguous);
    SetKeepsEvaluations(s.rows, s.workers, s.evaluations, w, phase);
  }

  /** An active worker moves on to a phase in which it has committed nothing. */
  lemma PhaseKeeps(g: Grids, s: State, w: nat, phase: Worker)
    requires Inv(g, s) && w in s.workers && s.workers[w].Active() && !s.workers[w].Committed?
    requires phase.job == s.workers[w].job && (phase.Evaluating? || phase.Broken?)
    ensures Inv(g, s.(workers := s.workers[w := phase]))
  {
    Open(g, s);
    assert ActiveOn(s.workers, w, phase.job);
    PhaseKeepsActors(g, s, w, phase);
    SetKeepsHolders(s.store, s.workers, s.late, s.late, w, phase);
  }

  lemma BeginKeeps(g: Grids, s: State, w: nat)
    requires Inv(g, s)
    ensures Inv(g, BeginStep(s, w))
  {
    if w in s.workers && s.workers[w].Started? && s.workers[w].job in s.rows.jobs {
      var j := s.workers[w].job;
      if NoRuns(s.store, s.rows.jobs[j].experimentId) {
        PhaseKeeps(g, s, w, Evaluating(j));
        CountKeeps(g, s, w, j);
      } else {
        PhaseKeeps(g, s, w, Broken(j));
      }
    }
  }

  lemma CountKeeps(g: Grids, s: State, w: nat, j: string)
    requires Inv(g, s) && w in s.workers && s.workers[w] == Started(j) && j in s.rows.jobs
    requires Inv(g, s.(workers := s.workers[w := Evaluating(j)]))
    ensures Inv(g, s.(workers := s.workers[w := Evaluating(j)], evaluations := s.evaluations + multiset{j}))
  {
    Open(g, s);
    Open(g, s.(workers := s.workers[w := Evaluating(j)]));
    assert ActiveOn(s.workers, w, j);
    CountEvaluation(s, w, j);
  }

  lemma CountEvaluation(s: State, w: nat, j: string)
    requires EvaluationInv(s.rows, s.workers, s.evaluations) && WorkerInv(s.rows, s.workers)
    requires w in s.workers && s.workers[w] == Started(j) && j in s.rows.jobs && !s.rows.Is(j, Queued)
    ensures EvaluationInv(s.rows, s.workers[w := Evaluating(j)], s.evaluations + multiset{j})
  {
    forall v | v in s.workers && v != w && s.workers[v].Started?
      ensures s.workers[v].job !in s.evaluations + multiset{j}
    {
      assert ActiveOn(s.workers, v, s.workers[v].job) && ActiveOn(s.workers, w, j);
    }
  }

  lemma RaiseKeeps(g: Grids, s: State, w: nat)
    requires Inv(g, s)
    ensures Inv(g, RaiseStep(s, w))
  {
    Open(g, s);
    if w in s.workers && (s.workers[w].Started? || s.workers[w].Evaluating?) {
      PhaseKeeps(g, s, w, Broken(s.workers[w].job));
    } else if w in s.workers && s.workers[w].Committed? {
      LateKeeps(g, s, w, s.workers[w].job);
    }
  }

  /** A worker raises after its commit: its job may now fail and own a result. */
  lemma LateKeeps(g: Grids, s: State, w: nat, j: string)
    requires Inv(g, s) && w in s.workers && s.workers[w].Committed? && s.workers[w].job == j
    ensures Inv(g, s.(workers := s.workers[w := Broken(j)], late := s.late + {j}))
  {
    Open(g, s);
    PhaseKeepsActors(g, s, w, Broken(j));
    SetKeepsHolders(s.store, s.workers, s.late, s.late + {j}, w, Broken(j));
    MoreSent(s.store, s.rows, s.sent, s.sent, s.Excused(), s.ambiguous + (s.late + {j}));
  }

  lemma CommitKeeps(g: Grids, s: State, w: nat, result: string)
    requires ValidGrids(g) && Inv(g, s)
    ensures Inv(g, CommitStep(g, s, w, result))
  {
    Open(g, s);
    if w in s.workers && s.workers[w].Evaluating? {
      var j := s.workers[w].job;
      assert j in s.sent && j in s.rows.jobs;
      if CanCommit(g, s.store, s.rows.jobs[j].experimentId, result) {
        CommittedKeeps(g, s, w, j, result);
      } else {
        PhaseKeeps(g, s, w, Broken(j));
      }
    }
  }

  lemma CommittedKeeps(g: Grids, s: State, w: nat, j: string, result: string)
    requires ValidGrids(g) && Inv(g, s) && w in s.workers && s.workers[w] == Evaluating(j)
    requires j in s.sent && j in s.rows.jobs && CanCommit(g, s.store, s.rows.jobs[j].experimentId, result)
    ensures Inv(g, CommitStep(g, s, w, result))
  {
    Open(g, s);
    var e, phase := s.rows.jobs[j].experimentId, Committed(j, result);
    var store := Commit(g, s.store, e, result, ByJob(j));
    assert ActiveOn(s.workers, w, j);
    CommitKeepsStore(g, s.store, e, result, ByJob(j));
    PhaseKeepsActors(g, s, w, phase);
    NewOwner(s.store, store, s.rows, s.sent, s.Excused(), result, j);
    NewHolder(s, store, w, j, result);
  }

  lemma OneMoreOwned(store: Store, store': Store, result: string, owner: Owner)
    requires store'.owners == store.owners[result := owner] && result !in store.owners
    ensures forall r, i :: OwnedBy(store', r, i) <==> OwnedBy(store, r, i) || (r == result && owner == ByJob(i))
  {
  }

  lemma NewOwner(
    store: Store, store': Store, rows: Rows, sent: set<string>, excused: set<string>, result: string, j: string)
    requires OwnerInv(store, rows, sent, excused) && result !in store.owners
    requires j in sent && j in rows.jobs && rows.Ran(j) && (rows.Is(j, Failed) ==> j in excused)
    requires store'.results == store.results[result := rows.jobs[j].experimentId]
    requires store'.owners == store.owners[result := ByJob(j)]
    ensures OwnerInv(store', rows, sent, excused)
  {
    OneMoreOwned(store, store', result, ByJob(j));
  }

  lemma NewHolder(s: State, store': Store, w: nat, j: string, result: string)
    requires HolderInv(s.store, s.workers, s.late) && WorkerInv(s.rows, s.workers)
    requires w in s.workers && s.workers[w] == Evaluating(j) && result !in s.store.owners
    requires store'.owners == s.store.owners[result := ByJob(j)]
    ensures HolderInv(store', s.workers[w := Committed(j, result)], s.late)
  {
    var workers := s.workers[w := Committed(j, result)];
    OneMoreOwned(s.store, store', result, ByJob(j));
    SameActive(s.workers, w, Committed(j, result));
    assert ActiveOn(s.workers, w, j);
    forall r, v, i | ActiveOn(workers, v, i) && OwnedBy(store', r, i)
      ensures workers[v].Committed? || i in s.late
    {
      assert ActiveOn(s.workers, v, i);
    }
    forall v | v in workers && workers[v].Committed?
      ensures OwnedBy(store', workers[v].result, workers[v].job)
    {
      if v != w {
        assert OwnedBy(s.store, workers[v].result, workers[v].job);
      }
    }
  }

  lemma CompleteKeeps(g: Grids, s: State, w: nat)
    requires Inv(g, s)
    ensures Inv(g, CompleteStep(s, w))
  {
    Open(g, s);
    if w in s.workers && s.workers[w].Committed? {
      var j, result := s.workers[w].job, s.workers[w].result;
      DropKeeps(g, s, w);
      WorkerOwns(s, w);
      CompletionKeeps(g, s.(workers := s.workers - {w}), j, result);
    }
  }

  lemma WorkerOwns(s: State, w: nat)
    requires QueueInv(s.rows, s.queue, s.sent, s.workers) && HolderInv(s.store, s.workers, s.late)
    requires w in s.workers && s.workers[w].Committed?
    ensures s.workers[w].job in s.rows.jobs && OwnedBy(s.store, s.workers[w].result, s.workers[w].job)
  {
  }

  lemma CompletionKeeps(g: Grids, s: State, j: string, result: string)
    requires Inv(g, s) && j in s.rows.jobs && OwnedBy(s.store, result, j)
    ensures Inv(g, s.(rows := Mark(s.rows, j, MarkCompleted(s.rows.jobs[j], result, s.now))))
  {
    Open(g, s);
    CompletedMoves(g, s.rows, s.now, j, result);
    var r := MarkCompleted(s.rows.jobs[j], result, s.now);
    if r.Ok? {
      RowMoves(g, s, Mark(s.rows, j, r), j, Completed);
    }
  }

  /** A row moves in a state that keeps the invariant. */
  lemma RowMoves(g: Grids, s: State, rows': Rows, j: string, status: JobStatus)
    requires Inv(g, s) && Moved(s.rows, rows', j, status) && RowsInv(g, rows', s.now)
    requires status == Failed ==> j in s.Excused() || forall r :: !OwnedBy(s.store, r, j)
    requires status == Failed ==> j in s.ambiguous || forall w :: !ActiveOn(s.workers, w, j)
    requires status == Completed ==>
               rows'.jobs[j].evaluationResultId.Some? && OwnedBy(s.store, rows'.jobs[j].evaluationResultId.value, j)
    ensures Inv(g, s.(rows := rows'))
  {
    Open(g, s);
    MoveKeepsActors(s.rows, rows', j, status, s);
    MoveKeepsOwners(s.store, s.rows, rows', j, status, s.sent, s.Excused());
    MoveKeepsOverruled(s.rows, rows', j, status, s.workers, s.ambiguous);
  }

  lemma FailKeeps(g: Grids, s: State, w: nat, text: string)
    requires Inv(g, s)
    ensures Inv(g, FailStep(s, w, text))
  {
    if w in s.workers && s.workers[w].Broken? && s.workers[w].job in s.rows.jobs {
      Open(g, s);
      LastActive(s, w, s.workers[w].job);
      DropKeeps(g, s, w);
      FailureKeeps(g, s.(workers := s.workers - {w}), s.workers[w].job, text);
    }
  }

  /** Once its active worker leaves, nobody is active on a job; and a broken worker's job owns no result
      unless it raised late. */
  lemma LastActive(s: State, w: nat, j: string)
    requires WorkerInv(s.rows, s.workers) && HolderInv(s.store, s.workers, s.late)
    requires w in s.workers && s.workers[w] == Broken(j)
    ensures j in s.late || forall r :: !OwnedBy(s.store, r, j)
    ensures forall v :: !ActiveOn(s.workers - {w}, v, j)
  {
    assert ActiveOn(s.workers, w, j);
    forall v
      ensures !ActiveOn(s.workers - {w}, v, j)
    {
      if ActiveOn(s.workers - {w}, v, j) {
        assert ActiveOn(s.workers, v, j);
      }
    }
  }

  lemma RequestCommitKeeps(g: Grids, s: State, n: nat, e: string, result: string)
    requires ValidGrids(g) && Inv(g, s) && CanCommit(g, s.store, e, result)
    ensures Inv(g, s.(store := Commit(g, s.store, e, result, ByRequest(n))))
  {
    Open(g, s);
    CommitKeepsStore(g, s.store, e, result, ByRequest(n));
    RequestOwns(s, Commit(g, s.store, e, result, ByRequest(n)), result, n);
  }

  /** The invariant says nothing about requests that have not committed. */
  lemma RequestsFree(g: Grids, s: State, requests: map<nat, string>)
    requires Inv(g, s)
    ensures Inv(g, s.(requests := requests))
  {
    Open(g, s);
  }

  lemma RequestKeeps(g: Grids, s: State, event: Event)
    requires ValidGrids(g) && Inv(g, s)
    ensures Inv(g, RequestStep(g, s, event))
  {
    match event
    case RequestBegins(n, e) => RequestsFree(g, s, s.requests[n := e]);
    case RequestCommits(n, result) =>
      RequestsFree(g, s, s.requests - {n});
      if n in s.requests && CanCommit(g, s.store, s.requests[n], result) {
        RequestCommitKeeps(g, s.(requests := s.requests - {n}), n, s.requests[n], result);
      }
    case RequestEnds(n) => RequestsFree(g, s, s.requests - {n});
    case _ =>
  }

  lemma RequestOwns(s: State, store': Store, result: string, n: nat)
    requires OwnerInv(s.store, s.rows, s.sent, s.Excused()) && HolderInv(s.store, s.workers, s.late)
    requires result !in s.store.owners
    requires store'.owners == s.store.owners[result := ByRequest(n)] && store'.results.Keys == store'.owners.Keys
    requires forall r :: r in s.store.results ==> store'.results[r] == s.store.results[r]
    ensures OwnerInv(store', s.rows, s.sent, s.Excused()) && HolderInv(store', s.workers, s.late)
  {
    OneMoreOwned(s.store, store', result, ByRequest(n));
  }

  lemma WorkerKeeps(g: Grids, s: State, event: Event)
    requires ValidGrids(g) && Inv(g, s)
    requires event.Start? || event.BeginEvaluation? || event.EvaluationRaises? || event.CommitEvaluation?
          || event.Complete? || event.RecordFailure? || event.WorkerDies?
    ensures Inv(g, Step(g, s, event))
  {
    match event
    case Start(w, taskId) => StartKeeps(g, s, w, taskId);
    case BeginEvaluation(w) => BeginKeeps(g, s, w);
    case EvaluationRaises(w) => RaiseKeeps(g, s, w);
    case CommitEvaluation(w, result) => CommitKeeps(g, s, w, result);
    case Complete(w) => CompleteKeeps(g, s, w);
    case RecordFailure(w, text) => FailKeeps(g, s, w, text);
    case WorkerDies(w) => DropKeeps(g, s, w);
  }

  /** Every event keeps the invariant. */
  lemma StepKeeps(g: Grids, s: State, event: Event)
    requires ValidGrids(g) && Inv(g, s)
    ensures Inv(g, Step(g, s, event))
  {
    match event
    case Tick(d) => TickKeeps(g, s, d);
    case Enqueue(j, e) => EnqueueKeeps(g, s, j, e);
    case Send(_) | DispatchReturns(_) | DispatchRaises(_) | EnqueuerDies(_) => EnqueuerKeeps(g, s, event);
    case RecordDispatchFailure(j, text) => DispatchFailureKeeps(g, s, j, text);
    case Duplicate(_) | Lose(_) | Receive(_, _) => BrokerKeeps(g, s, event);
    case RequestBegins(_, _) | RequestCommits(_, _) | RequestEnds(_) => RequestKeeps(g, s, event);
    case _ => WorkerKeeps(g, s, event);
  }

  // ----- What one step commits -----

  function KeysOf(store: Store, e: string): set<RunKey> {
    set k | k in store.keys && k.experimentId == e
  }

  /** The store is as it was, or gained one experiment of which it had nothing, whole. */
  ghost predicate GrowsWhole(g: Grids, before: Store, after: Store) {
    || after == before
    || exists e, r, owner ::
         CanCommit(g, before, e, r) && KeysOf(before, e) == {} && !HasResult(before, e)
         && after == Commit(g, before, e, r, owner)
  }

  lemma CommitGrowsWhole(g: Grids, before: Store, e: string, r: string, owner: Owner)
    requires ValidGrids(g) && StoreInv(g, before) && CanCommit(g, before, e, r)
    ensures GrowsWhole(g, before, Commit(g, before, e, r, owner))
  {
    NotYetCommitted(g, before, e, r);
    assert KeysOf(before, e) == {};
  }

  lemma StepGrowsWhole(g: Grids, s: State, event: Event)
    requires ValidGrids(g) && StoreInv(g, s.store)
    ensures GrowsWhole(g, s.store, Step(g, s, event).store)
  {
    if event.CommitEvaluation? {
      if CommitStep(g, s, event.worker, event.result).store != s.store {
        var j := s.workers[event.worker].job;
        CommitGrowsWhole(g, s.store, s.rows.jobs[j].experimentId, event.result, ByJob(j));
      }
    } else if event.RequestCommits? {
      if RequestStep(g, s, event).store != s.store {
        CommitGrowsWhole(g, s.store, s.requests[event.request], event.result, ByRequest(event.request));
      }
    } else {
      OtherStepsSpareTheStore(g, s, event);
    }
  }

  lemma OtherStepsSpareTheStore(g: Grids, s: State, event: Event)
    requires !event.CommitEvaluation? && !event.RequestCommits?
    ensures Step(g, s, event).store == s.store
  {
  }

  // ----- What one step leaves as it was -----

  /** Jobs are never removed or moved to another experiment, histories only grow, and a job that
      has ended is never touched again. */
  ghost predicate RowsLater(rows: Rows, rows': Rows) {
    && (forall j :: j in rows.jobs ==> j in rows'.jobs && rows'.jobs[j].experimentId == rows.jobs[j].experimentId)
    && (forall j :: j in rows.jobs && rows.jobs[j].status.Terminal() ==> rows'.jobs[j] == rows.jobs[j])
    && (forall j :: j in rows.histories ==> j in rows'.histories && rows.histories[j] <= rows'.histories[j])
  }

  /** Committed runs, results and their owners stay as they are. */
  ghost predicate StoreLater(store: Store, store': Store) {
    && store.keys <= store'.keys
    && (forall r :: r in store.results ==> r in store'.results && store'.results[r] == store.results[r])
    && (forall r :: r in store.owners ==> r in store'.owners && store'.owners[r] == store.owners[r])
  }

  lemma MarkLater(rows: Rows, j: string, r: Result<AsyncJob>)
    requires rows.histories.Keys == rows.jobs.Keys && j in rows.jobs
    requires r.Ok? ==> !rows.jobs[j].status.Terminal() && r.value.experimentId == rows.jobs[j].experimentId
    ensures RowsLater(rows, Mark(rows, j, r))
  {
  }

  lemma MarksSpareTheEnded(job: AsyncJob, taskId: Option<string>, result: string, text: string, now: int)
    ensures var r := MarkRunning(job, taskId, now);
            r.Ok? ==> !job.status.Terminal() && r.value.experimentId == job.experimentId
    ensures var r := MarkCompleted(job, result, now);
            r.Ok? ==> !job.status.Terminal() && r.value.experimentId == job.experimentId
    ensures var r := MarkFailed(job, text, now);
            r.Ok? ==> !job.status.Terminal() && r.value.experimentId == job.experimentId
  {
    var error := BoundError(text);
  }

  predicate MovesRows(event: Event) {
    event.Enqueue? || event.RecordDispatchFailure? || event.Start? || event.Complete? || event.RecordFailure?
  }

  lemma OtherStepsSpareTheRows(g: Grids, s: State, event: Event)
    requires !MovesRows(event)
    ensures Step(g, s, event).rows == s.rows
  {
  }

  lemma StepRows(g: Grids, s: State, event: Event)
    requires s.rows.histories.Keys == s.rows.jobs.Keys
    ensures RowsLater(s.rows, Step(g, s, event).rows)
  {
    match event
    case Enqueue(j, e) => EnqueueRows(g, s, j, e);
    case RecordDispatchFailure(j, text) => DispatchFailureRows(g, s, j, text);
    case Start(w, taskId) => StartRows(g, s, w, taskId);
    case Complete(w) => CompleteRows(g, s, w);
    case RecordFailure(w, text) => FailRows(g, s, w, text);
    case _ => OtherStepsSpareTheRows(g, s, event);
  }

  lemma EnqueueRows(g: Grids, s: State, j: string, e: string)
    requires s.rows.histories.Keys == s.rows.jobs.Keys
    ensures RowsLater(s.rows, Step(g, s, Enqueue(j, e)).rows)
  {
  }

  lemma DispatchFailureRows(g: Grids, s: State, j: string, text: string)
    requires s.rows.histories.Keys == s.rows.jobs.Keys
    ensures RowsLater(s.rows, Step(g, s, RecordDispatchFailure(j, text)).rows)
  {
    if j in s.rows.jobs {
      MarksSpareTheEnded(s.rows.jobs[j], None, "", text, s.now);
      MarkLater(s.rows, j, MarkFailed(s.rows.jobs[j], text, s.now));
    }
  }

  lemma SameRowsLater(rows: Rows)
    ensures RowsLater(rows, rows)
  {
  }

  lemma StartRows(g: Grids, s: State, w: nat, taskId: Option<string>)
    requires s.rows.histories.Keys == s.rows.jobs.Keys
    ensures RowsLater(s.rows, Step(g, s, Start(w, taskId)).rows)
  {
    if w in s.workers && s.workers[w].Received? && s.workers[w].job in s.rows.jobs {
      var j := s.workers[w].job;
      var r := MarkRunning(s.rows.jobs[j], taskId, s.now);
      if r.Ok? {
        MarksSpareTheEnded(s.rows.jobs[j], taskId, "", "", s.now);
        MarkLater(s.rows, j, r);
        assert Step(g, s, Start(w, taskId)).rows == Mark(s.rows, j, r);
        return;
      }
    }
    SameRowsLater(s.rows);
  }

  lemma CompleteRows(g: Grids, s: State, w: nat)
    requires s.rows.histories.Keys == s.rows.jobs.Keys
    ensures RowsLater(s.rows, Step(g, s, Complete(w)).rows)
  {
    if w in s.workers && s.workers[w].Committed? && s.workers[w].job in s.rows.jobs {
      var j := s.workers[w].job;
      MarksSpareTheEnded(s.rows.jobs[j], None, s.workers[w].result, "", s.now);
      MarkLater(s.rows, j, MarkCompleted(s.rows.jobs[j], s.workers[w].result, s.now));
    }
  }

  lemma FailRows(g: Grids, s: State, w: nat, text: string)
    requires s.rows.histories.Keys == s.rows.jobs.Keys
    ensures RowsLater(s.rows, Step(g, s, RecordFailure(w, text)).rows)
  {
    if w in s.workers && s.workers[w].job in s.rows.jobs {
      var j := s.workers[w].job;
      MarksSpareTheEnded(s.rows.jobs[j], None, "", text, s.now);
      MarkLater(s.rows, j, MarkFailed(s.rows.jobs[j], text, s.now));
    }
  }

  lemma StepStore(g: Grids, s: State, event: Event)
    requires ValidGrids(g) && StoreInv(g, s.store)
    ensures StoreLater(s.store, Step(g, s, event).store)
  {
    StepGrowsWhole(g, s, event);
  }

  lemma LawfulShapes(h: seq<JobStatus>)
    ensures Lawful(h) <==>
              || h == [Queued] || h == [Queued, Running] || h == [Queued, Failed]
              || h == [Queued, Running, Completed] || h == [Queued, Running, Failed]
  {
    if Lawful(h) {
      assert |h| > 1 ==> Follows(h[0], h[1]);
      assert |h| > 2 ==> Follows(h[1], h[2]);
      assert |h| > 3 ==> Follows(h[2], h[3]);
    }
  }

  // ----- A job that has ended, with no worker left -----

  /** Job `j` has ended and no worker is active on it. */
  ghost predicate AtRest(s: State, j: string) {
    && j in s.rows.jobs && s.rows.jobs[j].status.Terminal()
    && forall w :: !ActiveOn(s.workers, w, j)
  }

  lemma EndedStaysEnded(g: Grids, s: State, event: Event, j: string)
    requires s.rows.histories.Keys == s.rows.jobs.Keys && j in s.rows.jobs && s.rows.jobs[j].status.Terminal()
    ensures var jobs := Step(g, s, event).rows.jobs; j in jobs && jobs[j].status.Terminal()
  {
    StepRows(g, s, event);
  }

  lemma NobodyStarts(g: Grids, s: State, event: Event, j: string)
    requires AtRest(s, j)
    ensures forall w :: !ActiveOn(Step(g, s, event).workers, w, j)
  {
    if event.Start? {
      EndedNeverStarts(s, event.worker, event.taskId, j);
    } else {
      OnlyStartActivates(g, s, event, j);
    }
  }

  lemma EndedNeverStarts(s: State, w: nat, taskId: Option<string>, j: string)
    requires AtRest(s, j)
    ensures forall v :: !ActiveOn(StartStep(s, w, taskId).workers, v, j)
  {
    forall v
      ensures !ActiveOn(StartStep(s, w, taskId).workers, v, j)
    {
      assert !ActiveOn(s.workers, v, j);
    }
  }

  lemma OnlyStartActivates(g: Grids, s: State, event: Event, j: string)
    requires !event.Start?
    ensures forall w :: ActiveOn(Step(g, s, event).workers, w, j) ==> ActiveOn(s.workers, w, j)
  {
    if event.BeginEvaluation? || event.EvaluationRaises? || event.CommitEvaluation? {
      LaterPhase(g, s, event, j);
    }
  }

  /** Moving to a later phase activates nobody. */
  lemma LaterPhase(g: Grids, s: State, event: Event, j: string)
    requires event.BeginEvaluation? || event.EvaluationRaises? || event.CommitEvaluation?
    ensures forall w :: ActiveOn(Step(g, s, event).workers, w, j) ==> ActiveOn(s.workers, w, j)
  {
    var v := event.worker;
    assert forall w :: w != v ==> (w in Step(g, s, event).workers <==> w in s.workers);
  }

  lemma NobodyCommits(g: Grids, s: State, event: Event, j: string, r: string)
    requires AtRest(s, j) && s.store.owners.Keys == s.store.results.Keys
    ensures OwnedBy(Step(g, s, event).store, r, j) <==> OwnedBy(s.store, r, j)
  {
    if event.CommitEvaluation? {
      assert !ActiveOn(s.workers, event.worker, j);
    } else if !event.RequestCommits? {
      OtherStepsSpareTheStore(g, s, event);
    }
  }

  // ----- A race, step by step -----

  lemma RunNext(g: Grids, events: seq<Event>, k: nat)
    requires k < |events|
    ensures Run(g, events[..k + 1]) == Step(g, Run(g, events[..k]), events[k])
  {
    assert events[..k + 1][..k] == events[..k];
  }

  /** Dispatching job `j` raises although the message was sent. */
  predicate RaisesAmbiguously(s: State, event: Event, j: string) {
    event == DispatchRaises(j) && j in s.enqueuers && s.enqueuers[j].Sent?
  }

  /** A worker raises although it has committed its evaluation for job `j`. */
  predicate RaisesLate(s: State, event: Event, j: string) {
    && event.EvaluationRaises? && event.worker in s.workers
    && s.workers[event.worker].Committed? && s.workers[event.worker].job == j
  }

  lemma ExcuseStep(g: Grids, s: State, event: Event, j: string)
    ensures var s' := Step(g, s, event);
            && (j in s'.ambiguous <==> j in s.ambiguous || RaisesAmbiguously(s, event, j))
            && (j in s'.late <==> j in s.late || RaisesLate(s, event, j))
  {
  }

  /** One order of events of job `j`, one worker, and an enqueuer whose dispatch raises late. */
  function Race(j: string, e: string, r: string, text: string): seq<Event> {
    [Enqueue(j, e), Send(j), Receive(0, j), Start(0, None), BeginEvaluation(0), DispatchRaises(j),
     CommitEvaluation(0, r), RecordDispatchFailure(j, text), Complete(0)]
  }

  function StartedJob(j: string, e: string): AsyncJob {
    NewJob(j, e, 0).(status := Running, startedAt := Some(0))
  }

  function Lookup<K, V>(m: map<K, V>, k: K): Option<V> { if k in m then Some(m[k]) else None }

  /** How far job `j` of the race is: the clock, its row, its enqueuer, its worker, and the store. */
  datatype Point = Point(
    now: int, job: Option<AsyncJob>, enqueuer: Option<Enqueuer>, worker: Option<Worker>, store: Store)

  function PointOf(s: State, j: string): Point {
    var job := if j in s.rows.histories then Lookup(s.rows.jobs, j) else None;
    Point(s.now, job, Lookup(s.enqueuers, j), Lookup(s.workers, 0), s.store)
  }

  function RacePoint(job: AsyncJob, enqueuer: Option<Enqueuer>, worker: Option<Worker>): Point {
    Point(0, Some(job), enqueuer, worker, INITIAL.store)
  }

  lemma RaceOpens(g: Grids, j: string, e: string)
    requires e in g && !Blank(j) && !Blank(e)
    ensures PointOf(Step(g, INITIAL, Enqueue(j, e)), j) == RacePoint(NewJob(j, e, 0), Some(Dispatching), None)
  {
  }

  lemma RaceSends(g: Grids, s: State, j: string, job: AsyncJob)
    requires PointOf(s, j) == RacePoint(job, Some(Dispatching), None)
    ensures PointOf(Step(g, s, Send(j)), j) == RacePoint(job, Some(Sent), None)
    ensures j in Step(g, s, Send(j)).queue
  {
  }

  lemma RaceReceives(g: Grids, s: State, j: string, job: AsyncJob)
    requires PointOf(s, j) == RacePoint(job, Some(Sent), None) && j in s.queue
    ensures PointOf(Step(g, s, Receive(0, j)), j) == RacePoint(job, Some(Sent), Some(Received(j)))
  {
  }

  lemma RaceWorks(g: Grids, s: State, j: string, e: string)
    requires !Blank(j) && !Blank(e) && PointOf(s, j) == RacePoint(NewJob(j, e, 0), Some(Sent), Some(Received(j)))
    ensures PointOf(Step(g, s, Start(0, None)), j) == RacePoint(StartedJob(j, e), Some(Sent), Some(Started(j)))
  {
    assert MarkRunning(NewJob(j, e, 0), None, 0) == Ok(StartedJob(j, e));
  }

  lemma RaceEvaluates(g: Grids, s: State, j: string, job: AsyncJob)
    requires PointOf(s, j) == RacePoint(job, Some(Sent), Some(Started(j)))
    ensures PointOf(Step(g, s, BeginEvaluation(0)), j) == RacePoint(job, Some(Sent), Some(Evaluating(j)))
  {
  }

  lemma RaceRaises(g: Grids, s: State, j: string, job: AsyncJob)
    requires PointOf(s, j) == RacePoint(job, Some(Sent), Some(Evaluating(j)))
    ensures PointOf(Step(g, s, DispatchRaises(j)), j) == RacePoint(job, Some(Failing), Some(Evaluating(j)))
  {
  }

  function WonStore(g: Grids, j: string, e: string, r: string): Store
    requires e in g
  {
    Store(g[e], map[r := e], map[r := ByJob(j)])
  }

  lemma RaceCommits(g: Grids, s: State, j: string, e: string, r: string, enqueuer: Option<Enqueuer>)
    requires e in g && PointOf(s, j) == RacePoint(StartedJob(j, e), enqueuer, Some(Evaluating(j)))
    ensures PointOf(Step(g, s, CommitEvaluation(0, r)), j)
         == RacePoint(StartedJob(j, e), enqueuer, Some(Committed(j, r))).(store := WonStore(g, j, e, r))
  {
    assert {} + g[e] == g[e];
  }

  /** The last two steps: the failure is recorded, and the completion refused. */
  lemma RaceEnds(g: Grids, s: State, j: string, e: string, r: string, text: string)
    requires e in g && !Blank(j) && !Blank(e)
    requires PointOf(s, j)
          == RacePoint(StartedJob(j, e), Some(Failing), Some(Committed(j, r))).(store := WonStore(g, j, e, r))
    ensures var s' := Step(g, Step(g, s, RecordDispatchFailure(j, text)), Complete(0));
            s'.rows.Is(j, Failed) && s'.store == WonStore(g, j, e, r)
  {
    RefusedByClock(StartedJob(j, e), None, r, text, 0);
    var failed := Step(g, s, RecordDispatchFailure(j, text));
    assert failed.rows.Is(j, Failed) && failed.store == s.store;
  }

  /** Another order: dispatch returned in time, but the worker raises between its commit and its completion. */
  function Overrun(j: string, e: string, r: string, text: string): seq<Event> {
    [Enqueue(j, e), Send(j), Receive(0, j), Start(0, None), BeginEvaluation(0), DispatchReturns(j),
     CommitEvaluation(0, r), EvaluationRaises(0), RecordFailure(0, text)]
  }

  lemma OverrunReturns(g: Grids, s: State, j: string, job: AsyncJob)
    requires PointOf(s, j) == RacePoint(job, Some(Sent), Some(Evaluating(j)))
    ensures PointOf(Step(g, s, DispatchReturns(j)), j) == RacePoint(job, None, Some(Evaluating(j)))
  {
  }

  lemma OverrunRaises(g: Grids, s: State, j: string, p: Point, r: string)
    requires PointOf(s, j) == p && p.worker == Some(Committed(j, r))
    ensures PointOf(Step(g, s, EvaluationRaises(0)), j) == p.(worker := Some(Broken(j)))
  {
  }

  /** The last step: the failure is recorded. */
  lemma OverrunEnds(g: Grids, s: State, j: string, e: string, text: string)
    requires !Blank(j) && !Blank(e)
    requires var p := PointOf(s, j); p.now == 0 && p.job == Some(StartedJob(j, e)) && p.worker == Some(Broken(j))
    ensures var s' := Step(g, s, RecordFailure(0, text)); s'.rows.Is(j, Failed) && s'.store == s.store
  {
    RefusedByClock(StartedJob(j, e), None, "", text, 0);
  }

  lemma OverrunRuns(g: Grids, j: string, e: string, r: string, text: string)
    requires e in g && !Blank(j) && !Blank(e)
    ensures PointOf(Run(g, Overrun(j, e, r, text)[..6]), j) == RacePoint(StartedJob(j, e), None, Some(Evaluating(j)))
  {
    var race := Overrun(j, e, r, text);
    RaceEvaluating(g, j, e, race);
    OverrunReturnsNext(g, race, j, StartedJob(j, e));
  }

  lemma OverrunReturnsNext(g: Grids, race: seq<Event>, j: string, job: AsyncJob)
    requires |race| > 5 && race[5] == DispatchReturns(j)
    requires PointOf(Run(g, race[..5]), j) == RacePoint(job, Some(Sent), Some(Evaluating(j)))
    ensures PointOf(Run(g, race[..6]), j) == RacePoint(job, None, Some(Evaluating(j)))
  {
    RunNext(g, race, 5);
    OverrunReturns(g, Run(g, race[..5]), j, job);
  }

  /** Both orders open the same way. */
  predicate Opening(j: string, e: string, race: seq<Event>) {
    && |race| == 9
    && race[0] == Enqueue(j, e) && race[1] == Send(j) && race[2] == Receive(0, j)
    && race[3] == Start(0, None) && race[4] == BeginEvaluation(0)
  }

  lemma RaceStarts(g: Grids, j: string, e: string, race: seq<Event>)
    requires e in g && !Blank(j) && !Blank(e) && Opening(j, e, race)
    ensures PointOf(Run(g, race[..3]), j) == RacePoint(NewJob(j, e, 0), Some(Sent), Some(Received(j)))
  {
    assert race[..0] == [];
    RunNext(g, race, 0);
    RaceOpens(g, j, e);
    RunNext(g, race, 1);
    RaceSends(g, Run(g, race[..1]), j, NewJob(j, e, 0));
    RunNext(g, race, 2);
    RaceReceives(g, Run(g, race[..2]), j, NewJob(j, e, 0));
  }

  lemma RaceEvaluating(g: Grids, j: string, e: string, race: seq<Event>)
    requires e in g && !Blank(j) && !Blank(e) && Opening(j, e, race)
    ensures PointOf(Run(g, race[..5]), j) == RacePoint(StartedJob(j, e), Some(Sent), Some(Evaluating(j)))
  {
    RaceStarts(g, j, e, race);
    RunNext(g, race, 3);
    RaceWorks(g, Run(g, race[..3]), j, e);
    RunNext(g, race, 4);
    RaceEvaluates(g, Run(g, race[..4]), j, StartedJob(j, e));
  }

  lemma RaceRuns(g: Grids, j: string, e: string, r: string, text: string)
    requires e in g && !Blank(j) && !Blank(e)
    ensures PointOf(Run(g, Race(j, e, r, text)[..6]), j)
         == RacePoint(StartedJob(j, e), Some(Failing), Some(Evaluating(j)))
  {
    var race := Race(j, e, r, text);
    RaceEvaluating(g, j, e, race);
    RaceRaisesNext(g, race, j, StartedJob(j, e));
  }

  lemma RaceRaisesNext(g: Grids, race: seq<Event>, j: string, job: AsyncJob)
    requires |race| > 5 && race[5] == DispatchRaises(j)
    requires PointOf(Run(g, race[..5]), j) == RacePoint(job, Some(Sent), Some(Evaluating(j)))
    ensures PointOf(Run(g, race[..6]), j) == RacePoint(job, Some(Failing), Some(Evaluating(j)))
  {
    RunNext(g, race, 5);
    RaceRaises(g, Run(g, race[..5]), j, job);
  }
}
