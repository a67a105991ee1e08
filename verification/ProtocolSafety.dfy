/** What the step system guarantees after every sequence of events. */
module ProtocolSafety {
  import opened Basics
  import opened Jobs
  import opened Persistence
  import opened Protocol

  // ----- The invariant holds throughout -----

  /** The invariant holds after every sequence of events. */
  lemma {:induction false} Safety(g: Grids, events: seq<Event>)
    requires ValidGrids(g)
    ensures Inv(g, Run(g, events))
  {
    if events != [] {
      Safety(g, events[..|events| - 1]);
      StepKeeps(g, Run(g, events[..|events| - 1]), events[|events| - 1]);
    }
  }

  // ----- One result, whole or not at all -----

  /** Whatever was interleaved, raced or died: an experiment has its whole grid of runs and exactly
      one result, or no run and no result. */
  lemma AllOrNothing(g: Grids, events: seq<Event>, e: string)
    requires ValidGrids(g) && e in g
    ensures var store := Run(g, events).store;
            if HasResult(store, e) then KeysOf(store, e) == g[e] else KeysOf(store, e) == {}
  {
    Safety(g, events);
    Open(g, Run(g, events));
  }

  lemma AtMostOneResult(g: Grids, events: seq<Event>, r: string, r': string)
    requires ValidGrids(g)
    requires var results := Run(g, events).store.results; r in results && r' in results && results[r] == results[r']
    ensures r == r'
  {
    Safety(g, events);
    Open(g, Run(g, events));
  }

  /** No event commits part of an evaluation. */
  lemma StoreGrowsWhole(g: Grids, events: seq<Event>, event: Event)
    requires ValidGrids(g)
    ensures GrowsWhole(g, Run(g, events).store, Step(g, Run(g, events), event).store)
  {
    var s := Run(g, events);
    Safety(g, events);
    Open(g, s);
    StepGrowsWhole(g, s, event);
  }

  // ----- Jobs -----

  /** A completed job links the result it committed itself, of its own experiment. */
  lemma CompletedLinks(g: Grids, events: seq<Event>, j: string)
    requires ValidGrids(g) && Run(g, events).rows.Is(j, Completed)
    ensures var s := Run(g, events);
            && s.rows.jobs[j].evaluationResultId.Some?
            && var r := s.rows.jobs[j].evaluationResultId.value;
               r in s.store.results && s.store.results[r] == s.rows.jobs[j].experimentId && OwnedBy(s.store, r, j)
  {
    Safety(g, events);
    Open(g, Run(g, events));
  }

  /** At most one job of an experiment completes. */
  lemma AtMostOneCompleted(g: Grids, events: seq<Event>, j: string, j': string)
    requires ValidGrids(g)
    requires var rows := Run(g, events).rows;
             rows.Is(j, Completed) && rows.Is(j', Completed) && rows.jobs[j].experimentId == rows.jobs[j'].experimentId
    ensures j == j'
  {
    var rows := Run(g, events).rows;
    CompletedLinks(g, events, j);
    CompletedLinks(g, events, j');
    AtMostOneResult(g, events, rows.jobs[j].evaluationResultId.value, rows.jobs[j'].evaluationResultId.value);
  }

  /** Evaluation begins at most once for a job, even when its message is delivered again and again. */
  lemma EvaluatedOnce(g: Grids, events: seq<Event>, j: string)
    requires ValidGrids(g)
    ensures Run(g, events).evaluations[j] <= 1
  {
    Safety(g, events);
    Open(g, Run(g, events));
  }

  /** Every job row satisfies the entity's invariants, and has been through a prefix of queued,
      running, completed or failed, or through queued, failed; its status is where it got to. */
  lemma LifeCycle(g: Grids, events: seq<Event>, j: string)
    requires ValidGrids(g) && j in Run(g, events).rows.jobs
    ensures var rows := Run(g, events).rows;
            && rows.jobs[j].Valid() && j in rows.histories
            && var h := rows.histories[j];
               && (|| h == [Queued] || h == [Queued, Running] || h == [Queued, Failed]
                   || h == [Queued, Running, Completed] || h == [Queued, Running, Failed])
               && rows.jobs[j].status == h[|h| - 1]
  {
    var s := Run(g, events);
    Safety(g, events);
    Open(g, s);
    assert RowOk(g, s.rows.jobs[j], s.rows.histories[j], j, s.now);
    LawfulShapes(s.rows.histories[j]);
  }

  // ----- What is committed stays -----

  /** From any moment of a run to its end: everything committed is still there, and every job that
      had ended has not changed. */
  lemma {:induction false} NothingIsUndone(g: Grids, events: seq<Event>, k: nat)
    requires ValidGrids(g) && k <= |events|
    ensures StoreLater(Run(g, events[..k]).store, Run(g, events).store)
    ensures RowsLater(Run(g, events[..k]).rows, Run(g, events).rows)
  {
    if k == |events| {
      assert events[..k] == events;
    } else {
      var n := |events| - 1;
      NothingIsUndone(g, events[..n], k);
      assert events[..n][..k] == events[..k];
      Safety(g, events[..n]);
      Open(g, Run(g, events[..n]));
      StepRows(g, Run(g, events[..n]), events[n]);
      StepStore(g, Run(g, events[..n]), events[n]);
    }
  }

  // ----- A failed job may own a result, in exactly two ways -----

  /** At some moment of the run, dispatching job `j` raised although the message was sent. */
  predicate RaisedAmbiguously(g: Grids, events: seq<Event>, j: string) {
    events != [] &&
    var n := |events| - 1;
    RaisedAmbiguously(g, events[..n], j) || RaisesAmbiguously(Run(g, events[..n]), events[n], j)
  }

  /** At some moment of the run, a worker raised although it had committed its evaluation for job `j`. */
  predicate RaisedLate(g: Grids, events: seq<Event>, j: string) {
    events != [] &&
    var n := |events| - 1;
    RaisedLate(g, events[..n], j) || RaisesLate(Run(g, events[..n]), events[n], j)
  }

  /** The two history sets of the state record exactly those moments. */
  lemma {:induction false} ExcusesHappened(g: Grids, events: seq<Event>, j: string)
    ensures j in Run(g, events).ambiguous <==> RaisedAmbiguously(g, events, j)
    ensures j in Run(g, events).late <==> RaisedLate(g, events, j)
  {
    if events != [] {
      var n := |events| - 1;
      ExcusesHappened(g, events[..n], j);
      ExcuseStep(g, Run(g, events[..n]), events[n], j);
    }
  }

  lemma FailedOwnerIsExcused(g: Grids, s: State, j: string, r: string)
    requires Inv(g, s) && s.rows.Is(j, Failed) && OwnedBy(s.store, r, j)
    ensures j in s.ambiguous || j in s.late
  {
    Open(g, s);
  }

  /** A job recorded as failed has committed a result only if its dispatch raised although the message
      had been sent, or its worker raised although the evaluation had been committed. */
  lemma FailedWithResultOnlyIfExcused(g: Grids, events: seq<Event>, j: string, r: string)
    requires ValidGrids(g)
    requires Run(g, events).rows.Is(j, Failed) && OwnedBy(Run(g, events).store, r, j)
    ensures RaisedAmbiguously(g, events, j) || RaisedLate(g, events, j)
  {
    Safety(g, events);
    FailedOwnerIsExcused(g, Run(g, events), j, r);
    ExcusesHappened(g, events, j);
  }

  lemma OwnerRan(g: Grids, s: State, j: string, r: string)
    requires Inv(g, s) && OwnedBy(s.store, r, j)
    ensures s.rows.Ran(j)
  {
    Open(g, s);
  }

  /** A job failed before it was started never owns a result, however the run goes on. */
  lemma FailedUnstartedNeverOwns(g: Grids, events: seq<Event>, k: nat, j: string, r: string)
    requires ValidGrids(g) && k <= |events|
    requires var h := Run(g, events[..k]).rows.histories; j in h && h[j] == [Queued, Failed]
    ensures !OwnedBy(Run(g, events).store, r, j)
  {
    NothingIsUndone(g, events, k);
    Safety(g, events);
    if OwnedBy(Run(g, events).store, r, j) {
      OwnerRan(g, Run(g, events), j, r);
    }
  }

  /** Both happen, for any job of any experiment. First: the message was sent, sending raised all the
      same, and the failure was recorded between the worker's commit and its completion. */
  lemma FailedWithResultHappens(g: Grids, j: string, e: string, r: string, text: string)
    requires e in g && !Blank(j) && !Blank(e)
    ensures var s := Run(g, Race(j, e, r, text));
            s.rows.Is(j, Failed) && r in s.store.results && s.store.results[r] == e && OwnedBy(s.store, r, j)
  {
    var race := Race(j, e, r, text);
    RaceRuns(g, j, e, r, text);
    RunNext(g, race, 6);
    RaceCommits(g, Run(g, race[..6]), j, e, r, Some(Failing));
    RaceEnds(g, Run(g, race[..7]), j, e, r, text);
    RunNext(g, race, 7);
    RunNext(g, race, 8);
    assert race[..9] == race;
  }

  /** Second: dispatch is in order, and the worker raises between its commit and its completion. */
  lemma FailedLateHappens(g: Grids, j: string, e: string, r: string, text: string)
    requires e in g && !Blank(j) && !Blank(e)
    ensures DispatchRaises(j) !in Overrun(j, e, r, text)
    ensures var s := Run(g, Overrun(j, e, r, text));
            s.rows.Is(j, Failed) && r in s.store.results && s.store.results[r] == e && OwnedBy(s.store, r, j)
  {
    var race := Overrun(j, e, r, text);
    OverrunRuns(g, j, e, r, text);
    RunNext(g, race, 6);
    RaceCommits(g, Run(g, race[..6]), j, e, r, None);
    RunNext(g, race, 7);
    OverrunRaises(g, Run(g, race[..7]), j, PointOf(Run(g, race[..7]), j), r);
    RunNext(g, race, 8);
    OverrunEnds(g, Run(g, race[..8]), j, e, text);
    assert race[..9] == race;
  }

  /** From `s` to `s'`: job `j` is at rest, and owns the same results as before. */
  ghost predicate RestKept(s: State, s': State, j: string) {
    forall r :: RestKeptFor(s, s', j, r)
  }

  ghost predicate RestKeptFor(s: State, s': State, j: string, r: string) {
    AtRest(s', j) && (OwnedBy(s'.store, r, j) <==> OwnedBy(s.store, r, j))
  }

  lemma RestLasts(g: Grids, s: State, event: Event, j: string)
    requires Inv(g, s) && AtRest(s, j)
    ensures RestKept(s, Step(g, s, event), j)
  {
    Open(g, s);
    EndedStaysEnded(g, s, event, j);
    NobodyStarts(g, s, event, j);
    forall r
      ensures OwnedBy(Step(g, s, event).store, r, j) <==> OwnedBy(s.store, r, j)
    {
      NobodyCommits(g, s, event, j, r);
    }
  }

  lemma RestStillKept(g: Grids, before: State, s: State, event: Event, j: string)
    requires Inv(g, s) && RestKept(before, s, j)
    ensures RestKept(before, Step(g, s, event), j)
  {
    assert RestKeptFor(before, s, j, "");
    RestLasts(g, s, event, j);
    forall r
      ensures RestKeptFor(before, Step(g, s, event), j, r)
    {
      assert RestKeptFor(before, s, j, r) && RestKeptFor(s, Step(g, s, event), j, r);
    }
  }

  lemma RestKeptNext(g: Grids, events: seq<Event>, event: Event, before: State, j: string)
    requires ValidGrids(g) && RestKept(before, Run(g, events), j)
    ensures RestKept(before, Step(g, Run(g, events), event), j)
  {
    Safety(g, events);
    RestStillKept(g, before, Run(g, events), event, j);
  }

  lemma {:induction false} RestKeptOn(g: Grids, events: seq<Event>, k: nat, before: State, j: string)
    requires ValidGrids(g) && k <= |events| && RestKept(before, Run(g, events[..k]), j)
    ensures RestKept(before, Run(g, events), j)
  {
    if k == |events| {
      assert events[..k] == events;
    } else {
      var n := |events| - 1;
      assert events[..n][..k] == events[..k];
      RestKeptOn(g, events[..n], k, before, j);
      RestKeptNext(g, events[..n], events[n], before, j);
    }
  }

  /** Once a job has ended and no worker is active on it, it commits nothing any more: what it owns at
      the end of a run is what it owned at that moment. */
  lemma NothingCommittedAtRest(g: Grids, events: seq<Event>, k: nat, j: string)
    requires ValidGrids(g) && k <= |events| && AtRest(Run(g, events[..k]), j)
    ensures RestKept(Run(g, events[..k]), Run(g, events), j)
  {
    RestKeptOn(g, events, k, Run(g, events[..k]), j);
  }
}
