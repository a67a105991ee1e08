/** The evaluation tables, their unique keys, and sessions that commit all of their rows or none. */
module Persistence {
  import opened Basics
  import opened Domain

  /** The unique key of a run row. */
  datatype RunKey = RunKey(experimentId: string, versionId: string, caseId: string, repeatIndex: nat)

  function RunKeyOf(r: Run): RunKey { RunKey(r.experimentId, r.versionId, r.caseId, r.repeatIndex) }

  /** Rows by primary key; a case result is unique for its run, so it is listed under the run's id. */
  datatype Tables = Tables(
    runs: map<string, Run>,
    caseResults: map<string, CaseResult>,
    results: map<string, EvaluationResult>)

  datatype Row = RunRow(run: Run) | CaseRow(caseResult: CaseResult) | ResultRow(id: string, result: EvaluationResult)

  predicate KeyTaken(t: Tables, key: RunKey) {
    exists id :: id in t.runs && RunKeyOf(t.runs[id]) == key
  }

  /** `list_for_experiment` finds something. */
  predicate HasRuns(t: Tables, experimentId: string) {
    exists id :: id in t.runs && t.runs[id].experimentId == experimentId
  }

  /** Insert one row, or report the key it violates. */
  function InsertRow(t: Tables, row: Row): Result<Tables> {
    match row
    case RunRow(r) =>
      if r.id in t.runs || KeyTaken(t, RunKeyOf(r)) then Err(RecordConflict) else Ok(t.(runs := t.runs[r.id := r]))
    case CaseRow(c) =>
      if c.runId in t.caseResults || c.runId !in t.runs then Err(RecordConflict)
      else Ok(t.(caseResults := t.caseResults[c.runId := c]))
    case ResultRow(id, result) =>
      if id in t.results then Err(RecordConflict) else Ok(t.(results := t.results[id := result]))
  }

  function InsertAll(t: Tables, rows: seq<Row>): (r: Result<Tables>)
    ensures r.Err? ==> r.error == RecordConflict
  {
    if rows == [] then Ok(t)
    else
      var t' :- InsertAll(t, rows[..|rows| - 1]);
      InsertRow(t', rows[|rows| - 1])
  }

  lemma {:induction false} InsertAllConcat(t: Tables, a: seq<Row>, b: seq<Row>)
    ensures InsertAll(t, a + b)
         == if InsertAll(t, a).Ok? then InsertAll(InsertAll(t, a).value, b) else Err(RecordConflict)
    decreases |b|
  {
    if b == [] {
      assert a + b == a;
    } else {
      InsertAllConcat(t, a, b[..|b| - 1]);
      assert (a + b)[..|a + b| - 1] == a + b[..|b| - 1];
    }
  }

  lemma RefusedPrefix(t: Tables, rows: seq<Row>, i: nat)
    requires i <= |rows| && InsertAll(t, rows[..i]).Err?
    ensures InsertAll(t, rows).Err?
  {
    InsertAllConcat(t, rows[..i], rows[i..]);
    assert rows[..i] + rows[i..] == rows;
  }

  /** Inserting only adds: every row that was there is still there, unchanged. */
  ghost predicate Extends(t: Tables, t': Tables) {
    && (forall id :: id in t.runs ==> id in t'.runs && t'.runs[id] == t.runs[id])
    && (forall id :: id in t.caseResults ==> id in t'.caseResults && t'.caseResults[id] == t.caseResults[id])
    && (forall id :: id in t.results ==> id in t'.results && t'.results[id] == t.results[id])
  }

  lemma {:induction false} InsertAllExtends(t: Tables, rows: seq<Row>)
    requires InsertAll(t, rows).Ok?
    ensures Extends(t, InsertAll(t, rows).value)
  {
    if rows != [] {
      InsertAllExtends(t, rows[..|rows| - 1]);
    }
  }

  /** What the keys of the tables promise: a run is filed under its id, no two runs share a run key, and
      every case result is filed under a stored run's id. */
  ghost predicate KeysHold(t: Tables) {
    && (forall id :: id in t.runs ==> t.runs[id].id == id)
    && (forall id, id' :: id in t.runs && id' in t.runs && RunKeyOf(t.runs[id]) == RunKeyOf(t.runs[id']) ==> id == id')
    && (forall id :: id in t.caseResults ==> id in t.runs && t.caseResults[id].runId == id)
  }

  lemma InsertRowKeepsKeys(t: Tables, row: Row)
    requires KeysHold(t) && InsertRow(t, row).Ok?
    ensures KeysHold(InsertRow(t, row).value)
  {
  }

  /** Whatever rows are inserted, in whatever order, the keys hold afterwards. */
  lemma {:induction false} InsertAllKeepsKeys(t: Tables, rows: seq<Row>)
    requires KeysHold(t) && InsertAll(t, rows).Ok?
    ensures KeysHold(InsertAll(t, rows).value)
  {
    if rows != [] {
      var n := |rows| - 1;
      InsertAllKeepsKeys(t, rows[..n]);
      InsertRowKeepsKeys(InsertAll(t, rows[..n]).value, rows[n]);
    }
  }

  // ----- Sessions -----

  /** The database, as far as committed. */
  class Database {
    var tables: Tables

    constructor ()
      ensures tables == Tables(map[], map[], map[])
    {
      tables := Tables(map[], map[], map[]);
    }
  }

  /** One transaction: rows it has inserted and not yet committed. */
  class Session {
    const db: Database
    var pending: seq<Row>

    constructor (db: Database)
      ensures this.db == db && pending == []
    {
      this.db := db;
      pending := [];
    }

    /** What this transaction reads: the committed rows and its own. */
    function View(): Result<Tables>
      reads this, db
    {
      InsertAll(db.tables, pending)
    }

    /** Insert and flush. A refused row leaves the transaction as it was, to be rolled back. */
    method Add(row: Row) returns (r: Result<()>)
      modifies this`pending
      ensures r.Ok? <==> old(View()).Ok? && InsertRow(old(View()).value, row).Ok?
      ensures r.Ok? ==> pending == old(pending) + [row] && View() == InsertRow(old(View()).value, row)
      ensures r.Err? ==> r.error == RecordConflict && pending == old(pending)
    {
      var rows := pending + [row];
      assert rows[..|rows| - 1] == pending;
      if InsertAll(db.tables, rows).Err? {
        return Err(RecordConflict);
      }
      pending := rows;
      r := Ok(());
    }

    /** Add these rows in order, up to the first refused one. */
    method AddAll(rows: seq<Row>) returns (r: Result<()>)
      requires View().Ok?
      modifies this`pending
      ensures r.Ok? <==> InsertAll(old(View()).value, rows).Ok?
      ensures r.Ok? ==> pending == old(pending) + rows && View() == InsertAll(old(View()).value, rows)
      ensures r.Err? ==> r.error == RecordConflict
    {
      var start := pending;
      ghost var view := View().value;
      assert start + rows[..0] == start;
      for i := 0 to |rows|
        invariant pending == start + rows[..i]
        invariant View().Ok? && View() == InsertAll(view, rows[..i])
      {
        assert rows[..i + 1][..i] == rows[..i] && start + rows[..i] + [rows[i]] == start + rows[..i + 1];
        r := Add(rows[i]);
        if r.Err? {
          RefusedPrefix(view, rows, i + 1);
          return;
        }
      }
      assert rows[..|rows|] == rows;
      r := Ok(());
    }

    /** Commit against whatever has been committed meanwhile: every row, or none. */
    method Commit() returns (r: Result<()>)
      modifies db`tables
      ensures var all := InsertAll(old(db.tables), pending);
              if all.Ok? then r == Ok(()) && db.tables == all.value
              else r == Err(RecordConflict) && db.tables == old(db.tables)
      ensures KeysHold(old(db.tables)) ==> KeysHold(db.tables)
    {
      var all := InsertAll(db.tables, pending);
      if all.Err? {
        return Err(all.error);
      }
      if KeysHold(db.tables) {
        InsertAllKeepsKeys(db.tables, pending);
      }
      db.tables := all.value;
      r := Ok(());
    }
  }

  // ----- What inserting the rows of an outcome does -----

  function RunRows(runs: seq<Run>): (rows: seq<Row>)
    ensures |rows| == |runs| && forall i :: 0 <= i < |rows| ==> rows[i] == RunRow(runs[i])
  {
    seq(|runs|, i requires 0 <= i < |runs| => RunRow(runs[i]))
  }

  function CaseRows(results: seq<CaseResult>): (rows: seq<Row>)
    ensures |rows| == |results| && forall i :: 0 <= i < |rows| ==> rows[i] == CaseRow(results[i])
  {
    seq(|results|, i requires 0 <= i < |results| => CaseRow(results[i]))
  }

  /** Every row of one evaluation, in the order they are inserted. */
  function RowsOf(o: RunOutcome, resultId: string, result: EvaluationResult): seq<Row> {
    RunRows(o.runs) + CaseRows(o.caseResults) + [ResultRow(resultId, result)]
  }

  /** The keys of the committed runs. */
  function KeysIn(t: Tables): set<RunKey> {
    set id | id in t.runs :: RunKeyOf(t.runs[id])
  }

  /** Which experiment each committed result belongs to. */
  function OwnersIn(t: Tables): map<string, string> {
    map id | id in t.results :: t.results[id].experimentId
  }

  function KeySet(runs: seq<Run>): set<RunKey> {
    set i | 0 <= i < |runs| :: RunKeyOf(runs[i])
  }

  function IdSet(runs: seq<Run>): set<string> {
    set i | 0 <= i < |runs| :: runs[i].id
  }

  ghost predicate DistinctRuns(runs: seq<Run>) {
    forall i, j :: 0 <= i < j < |runs| ==> runs[i].id != runs[j].id && RunKeyOf(runs[i]) != RunKeyOf(runs[j])
  }

  lemma KeySetSnoc(runs: seq<Run>)
    requires runs != []
    ensures KeySet(runs) == KeySet(runs[..|runs| - 1]) + {RunKeyOf(runs[|runs| - 1])}
    ensures IdSet(runs) == IdSet(runs[..|runs| - 1]) + {runs[|runs| - 1].id}
  {
    var n := |runs| - 1;
    forall k
      ensures k in KeySet(runs) <==> k in KeySet(runs[..n]) || k == RunKeyOf(runs[n])
    {
      if k in KeySet(runs) {
        var i :| 0 <= i < |runs| && RunKeyOf(runs[i]) == k;
        assert i < n ==> runs[..n][i] == runs[i];
      }
    }
    forall k
      ensures k in IdSet(runs) <==> k in IdSet(runs[..n]) || k == runs[n].id
    {
      if k in IdSet(runs) {
        var i :| 0 <= i < |runs| && runs[i].id == k;
        assert i < n ==> runs[..n][i] == runs[i];
      }
    }
  }

  lemma KeysInSnoc(t: Tables, r: Run)
    requires r.id !in t.runs
    ensures KeysIn(t.(runs := t.runs[r.id := r])) == KeysIn(t) + {RunKeyOf(r)}
  {
    var t' := t.(runs := t.runs[r.id := r]);
    forall k
      ensures k in KeysIn(t') <==> k in KeysIn(t) || k == RunKeyOf(r)
    {
      if k in KeysIn(t) {
        var id :| id in t.runs && RunKeyOf(t.runs[id]) == k;
        assert t'.runs[id] == t.runs[id];
      }
      assert t'.runs[r.id] == r;
    }
  }

  /** These runs are filed, under new ids, and nothing else was added. */
  ghost predicate RunsFiled(t: Tables, runs: seq<Run>, t': Tables) {
    && KeysIn(t') == KeysIn(t) + KeySet(runs)
    && t'.runs.Keys == t.runs.Keys + IdSet(runs)
    && t'.caseResults == t.caseResults && t'.results == t.results
    && forall i :: 0 <= i < |runs| ==> t'.runs[runs[i].id] == runs[i]
  }

  lemma LastRunFits(t: Tables, runs: seq<Run>, t': Tables)
    requires DistinctRuns(runs) && runs != [] && RunsFiled(t, runs[..|runs| - 1], t')
    ensures var last := runs[|runs| - 1];
            InsertRow(t', RunRow(last)).Ok? <==> last.id !in t.runs && RunKeyOf(last) !in KeysIn(t)
  {
    var n := |runs| - 1;
    var last := runs[n];
    assert KeyTaken(t', RunKeyOf(last)) <==> RunKeyOf(last) in KeysIn(t');
    assert last.id !in IdSet(runs[..n]);
    assert RunKeyOf(last) !in KeySet(runs[..n]);
  }

  lemma LastRunFiled(t: Tables, runs: seq<Run>, t': Tables)
    requires DistinctRuns(runs) && runs != [] && RunsFiled(t, runs[..|runs| - 1], t')
    requires InsertRow(t', RunRow(runs[|runs| - 1])).Ok?
    ensures RunsFiled(t, runs, InsertRow(t', RunRow(runs[|runs| - 1])).value)
  {
    var n := |runs| - 1;
    KeySetSnoc(runs);
    KeysInSnoc(t', runs[n]);
    var t'' := InsertRow(t', RunRow(runs[n])).value;
    forall i | 0 <= i < |runs|
      ensures t''.runs[runs[i].id] == runs[i]
    {
      if i < n {
        assert runs[..n][i] == runs[i] && runs[i].id != runs[n].id;
      }
    }
  }

  /** Runs of distinct ids and keys go in exactly when no id and no key is taken. */
  lemma {:induction false} RunsInserted(t: Tables, runs: seq<Run>)
    requires DistinctRuns(runs)
    ensures var r := InsertAll(t, RunRows(runs));
            && (r.Ok? <==> IdSet(runs) !! t.runs.Keys && KeySet(runs) !! KeysIn(t))
            && (r.Ok? ==> RunsFiled(t, runs, r.value))
  {
    if runs == [] {
      assert KeySet(runs) == {} && IdSet(runs) == {};
    } else {
      var n := |runs| - 1;
      RunsInserted(t, runs[..n]);
      KeySetSnoc(runs);
      assert RunRows(runs)[..n] == RunRows(runs[..n]);
      var before := InsertAll(t, RunRows(runs[..n]));
      if before.Ok? {
        LastRunFits(t, runs, before.value);
        if InsertRow(before.value, RunRow(runs[n])).Ok? {
          LastRunFiled(t, runs, before.value);
        }
      }
    }
  }

  function ScoredIds(results: seq<CaseResult>): set<string> {
    set i | 0 <= i < |results| :: results[i].runId
  }

  /** These case results are filed, and nothing else was added. */
  ghost predicate Filed(t: Tables, results: seq<CaseResult>, t': Tables) {
    && t'.runs == t.runs && t'.results == t.results
    && t'.caseResults.Keys == t.caseResults.Keys + ScoredIds(results)
    && forall i :: 0 <= i < |results| ==> t'.caseResults[results[i].runId] == results[i]
  }

  lemma FiledSnoc(t: Tables, results: seq<CaseResult>, t': Tables)
    requires results != []
    requires forall i, j :: 0 <= i < j < |results| ==> results[i].runId != results[j].runId
    requires var last := results[|results| - 1]; last.runId in t.runs && last.runId !in t.caseResults
    requires Filed(t, results[..|results| - 1], t')
    ensures var r := InsertRow(t', CaseRow(results[|results| - 1])); r.Ok? && Filed(t, results, r.value)
  {
    var n := |results| - 1;
    var before, last := results[..n], results[n];
    assert last.runId !in ScoredIds(before);
    var r := InsertRow(t', CaseRow(last));
    forall id
      ensures id in ScoredIds(results) <==> id in ScoredIds(before) || id == last.runId
    {
      if id in ScoredIds(results) {
        var i :| 0 <= i < |results| && results[i].runId == id;
        assert i < n ==> before[i] == results[i];
      }
      if i :| 0 <= i < n && before[i].runId == id {
        assert results[i].runId == id;
      }
    }
    assert ScoredIds(results) == ScoredIds(before) + {last.runId};
    forall i | 0 <= i < |results|
      ensures r.value.caseResults[results[i].runId] == results[i]
    {
      if i < n {
        assert before[i] == results[i] && results[i].runId != last.runId;
      }
    }
  }

  /** Case results, one for each of the runs just inserted, always go in. */
  lemma {:induction false} CaseResultsInserted(t: Tables, results: seq<CaseResult>)
    requires forall i :: 0 <= i < |results| ==> results[i].runId in t.runs && results[i].runId !in t.caseResults
    requires forall i, j :: 0 <= i < j < |results| ==> results[i].runId != results[j].runId
    ensures var r := InsertAll(t, CaseRows(results)); r.Ok? && Filed(t, results, r.value)
  {
    if results == [] {
      assert ScoredIds(results) == {};
    } else {
      var n := |results| - 1;
      CaseResultsInserted(t, results[..n]);
      CaseRowsSnoc(t, results);
      FiledSnoc(t, results, InsertAll(t, CaseRows(results[..n])).value);
    }
  }

  lemma CaseRowsSnoc(t: Tables, results: seq<CaseResult>)
    requires results != []
    ensures var n := |results| - 1;
            InsertAll(t, CaseRows(results)) ==
            match InsertAll(t, CaseRows(results[..n]))
            case Ok(before) => InsertRow(before, CaseRow(results[n]))
            case Err(e) => Err(e)
  {
    var n := |results| - 1;
    assert CaseRows(results)[..n] == CaseRows(results[..n]) && CaseRows(results)[n] == CaseRow(results[n]);
  }

  /** Every stored case result is the result of a stored run. */
  ghost predicate CasesHaveRuns(t: Tables) {
    forall id :: id in t.caseResults ==> id in t.runs
  }

  /** Runs and case results gained exactly the ids of these runs. */
  ghost predicate IdsFiled(t: Tables, runs: seq<Run>, t': Tables) {
    && t'.runs.Keys == t.runs.Keys + IdSet(runs)
    && t'.caseResults.Keys == t.caseResults.Keys + IdSet(runs)
  }

  lemma ScoredIdsAreRunIds(o: RunOutcome)
    requires |o.caseResults| == |o.runs|
    requires forall i :: 0 <= i < |o.runs| ==> o.caseResults[i].runId == o.runs[i].id
    ensures ScoredIds(o.caseResults) == IdSet(o.runs)
  {
    forall id
      ensures id in ScoredIds(o.caseResults) <==> id in IdSet(o.runs)
    {
      if i :| 0 <= i < |o.runs| && o.runs[i].id == id {
        assert o.caseResults[i].runId == id;
      }
    }
  }

  lemma CasesFollowRuns(t: Tables, o: RunOutcome, t': Tables)
    requires CasesHaveRuns(t) && DistinctRuns(o.runs) && |o.caseResults| == |o.runs|
    requires forall i :: 0 <= i < |o.runs| ==> o.caseResults[i].runId == o.runs[i].id
    requires IdSet(o.runs) !! t.runs.Keys && RunsFiled(t, o.runs, t')
    ensures var r := InsertAll(t', CaseRows(o.caseResults));
            && r.Ok? && KeysIn(r.value) == KeysIn(t) + KeySet(o.runs) && r.value.results == t.results
            && IdsFiled(t, o.runs, r.value) && CasesHaveRuns(r.value)
            && forall i :: 0 <= i < |o.runs| ==> Stored(r.value, o.runs[i], o.caseResults[i])
  {
    forall i | 0 <= i < |o.caseResults|
      ensures o.caseResults[i].runId in t'.runs && o.caseResults[i].runId !in t'.caseResults
    {
      assert o.runs[i].id in IdSet(o.runs);
    }
    CaseResultsInserted(t', o.caseResults);
    ScoredIdsAreRunIds(o);
    var t'' := InsertAll(t', CaseRows(o.caseResults)).value;
    forall id | id in t''.caseResults
      ensures id in t''.runs
    {
      if id in ScoredIds(o.caseResults) {
        var i :| 0 <= i < |o.caseResults| && o.caseResults[i].runId == id;
        assert o.runs[i].id in IdSet(o.runs);
      }
    }
  }

  lemma InsertThree(t: Tables, a: seq<Row>, b: seq<Row>, last: Row)
    ensures var one := InsertAll(t, a);
            if one.Err? then InsertAll(t, a + b + [last]).Err?
            else
              var two := InsertAll(one.value, b);
              if two.Err? then InsertAll(t, a + b + [last]).Err?
              else InsertAll(t, a + b + [last]) == InsertRow(two.value, last)
  {
    InsertAllConcat(t, a, b);
    assert (a + b + [last])[..|a + b|] == a + b;
  }

  /** What a committed outcome leaves behind. */
  ghost predicate OutcomeFiled(t: Tables, o: RunOutcome, resultId: string, result: EvaluationResult, t': Tables)
    requires |o.caseResults| == |o.runs|
  {
    && CasesHaveRuns(t')
    && KeysIn(t') == KeysIn(t) + KeySet(o.runs)
    && IdsFiled(t, o.runs, t')
    && OwnersIn(t') == OwnersIn(t)[resultId := result.experimentId]
    && t'.results == t.results[resultId := result]
    && forall i :: 0 <= i < |o.runs| ==> Stored(t', o.runs[i], o.caseResults[i])
  }

  /** The rows of an outcome, in which each run has one case result, go in together exactly when
      the ids are new and no run key is taken; the store then has those keys and that result more. */
  lemma OutcomeInserted(t: Tables, o: RunOutcome, resultId: string, result: EvaluationResult)
    requires CasesHaveRuns(t) && DistinctRuns(o.runs) && |o.caseResults| == |o.runs|
    requires forall i :: 0 <= i < |o.runs| ==> o.caseResults[i].runId == o.runs[i].id
    ensures var r := InsertAll(t, RowsOf(o, resultId, result));
            && (r.Ok? <==> IdSet(o.runs) !! t.runs.Keys && resultId !in t.results && KeySet(o.runs) !! KeysIn(t))
            && (r.Ok? ==> OutcomeFiled(t, o, resultId, result, r.value))
  {
    InsertThree(t, RunRows(o.runs), CaseRows(o.caseResults), ResultRow(resultId, result));
    RunsInserted(t, o.runs);
    if InsertAll(t, RunRows(o.runs)).Ok? {
      var t' := InsertAll(t, RunRows(o.runs)).value;
      CasesFollowRuns(t, o, t');
      if resultId !in t.results {
        Finish(InsertAll(t', CaseRows(o.caseResults)).value, resultId, result);
      }
    }
  }

  /** The run and its case result are both in the store. */
  predicate Stored(t: Tables, run: Run, scored: CaseResult) {
    && run.id in t.runs && t.runs[run.id] == run
    && run.id in t.caseResults && t.caseResults[run.id] == scored
  }

  lemma Finish(t: Tables, resultId: string, result: EvaluationResult)
    requires resultId !in t.results
    ensures var t' := InsertRow(t, ResultRow(resultId, result)).value;
            && KeysIn(t') == KeysIn(t) && OwnersIn(t') == OwnersIn(t)[resultId := result.experimentId]
  {
    var t' := InsertRow(t, ResultRow(resultId, result)).value;
    assert KeysIn(t') == KeysIn(t);
    assert OwnersIn(t').Keys == OwnersIn(t)[resultId := result.experimentId].Keys;
  }
}
