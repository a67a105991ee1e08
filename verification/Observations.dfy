/** How runs are read: by version, by (case, repeat) key, and as per-run observations of a rate. */
module Observations {
  import opened Basics
  import opened Sequences
  import opened Ordering
  import opened Domain

  // ----- Selecting runs -----

  /** The runs of one version, in execution order. */
  function RunsOf(runs: seq<Run>, version: string): seq<Run> {
    if runs == [] then []
    else
      var rest, r := RunsOf(runs[..|runs| - 1], version), runs[|runs| - 1];
      if r.versionId == version then rest + [r] else rest
  }

  function KeysOf(runs: seq<Run>): (keys: seq<PairKey>)
    ensures |keys| == |runs|
    ensures forall i :: 0 <= i < |keys| ==> keys[i] == runs[i].Key()
  {
    seq(|runs|, i requires 0 <= i < |runs| => runs[i].Key())
  }

  /** Dictionary from key to run; a later run of the same key would win. */
  function ByKey(runs: seq<Run>): map<PairKey, Run> {
    if runs == [] then map[]
    else
      var r := runs[|runs| - 1];
      ByKey(runs[..|runs| - 1])[r.Key() := r]
  }

  lemma {:induction false} ByKeyMembers(runs: seq<Run>)
    ensures forall k :: k in ByKey(runs) <==> k in KeysOf(runs)
    ensures forall k :: k in ByKey(runs) ==> ByKey(runs)[k] in runs && ByKey(runs)[k].Key() == k
  {
    if runs != [] {
      var n := |runs| - 1;
      ByKeyMembers(runs[..n]);
      assert runs == runs[..n] + [runs[n]];
      assert KeysOf(runs) == KeysOf(runs[..n]) + [runs[n].Key()];
    }
  }

  lemma {:induction false} ByKeyFacts(runs: seq<Run>)
    requires NoDup(KeysOf(runs))
    ensures |ByKey(runs)| == |runs|
    ensures forall i :: 0 <= i < |runs| ==> runs[i].Key() in ByKey(runs) && ByKey(runs)[runs[i].Key()] == runs[i]
  {
    if runs != [] {
      var n := |runs| - 1;
      var before, last := runs[..n], runs[n].Key();
      var keys := KeysOf(runs);
      assert KeysOf(before) == keys[..n];
      ByKeyFacts(before);
      ByKeyMembers(before);
      assert last == keys[n] && last !in keys[..n];
      forall i | 0 <= i < n
        ensures runs[i].Key() in ByKey(runs) && ByKey(runs)[runs[i].Key()] == runs[i]
      {
        assert before[i] == runs[i] && keys[i] != keys[n];
      }
    }
  }

  lemma {:induction false} RunsOfMembers(runs: seq<Run>, version: string)
    ensures forall r :: r in RunsOf(runs, version) <==> r in runs && r.versionId == version
    ensures |RunsOf(runs, version)| <= |runs|
  {
    if runs != [] {
      RunsOfMembers(runs[..|runs| - 1], version);
      assert runs == runs[..|runs| - 1] + [runs[|runs| - 1]];
    }
  }

  lemma {:induction false} RunsOfConcat(a: seq<Run>, b: seq<Run>, version: string)
    ensures RunsOf(a + b, version) == RunsOf(a, version) + RunsOf(b, version)
    decreases |b|
  {
    if b == [] {
      assert a + b == a;
    } else {
      var b' := b[..|b| - 1];
      RunsOfConcat(a, b', version);
      assert (a + b)[..|a + b| - 1] == a + b';
    }
  }

  lemma {:induction false} RunsOfUniform(runs: seq<Run>, version: string, same: bool)
    requires forall i :: 0 <= i < |runs| ==> (runs[i].versionId == version) == same
    ensures RunsOf(runs, version) == if same then runs else []
  {
    if runs != [] {
      RunsOfUniform(runs[..|runs| - 1], version, same);
    }
  }

  /** `_runs_by_key`: a second run of one version for the same key is an error. */
  method RunsByKey(runs: seq<Run>, version: string) returns (r: Result<map<PairKey, Run>>)
    ensures r.Ok? <==> NoDup(KeysOf(RunsOf(runs, version)))
    ensures r == if r.Ok? then Ok(ByKey(RunsOf(runs, version))) else Err(ConfigError)
  {
    var byKey: map<PairKey, Run> := map[];
    for i := 0 to |runs|
      invariant NoDup(KeysOf(RunsOf(runs[..i], version)))
      invariant byKey == ByKey(RunsOf(runs[..i], version))
    {
      var run := runs[i];
      ghost var before := RunsOf(runs[..i], version);
      assert runs[..i + 1][..i] == runs[..i];
      if run.versionId == version {
        ByKeyMembers(before);
        assert (before + [run])[..|before|] == before;
        assert KeysOf(before + [run]) == KeysOf(before) + [run.Key()];
        if run.Key() in byKey {
          RepeatedKeyPersists(runs, i, version);
          return Err(ConfigError);
        }
        byKey := byKey[run.Key() := run];
      }
    }
    assert runs[..|runs|] == runs;
    r := Ok(byKey);
  }

  lemma RepeatedKeyPersists(runs: seq<Run>, i: nat, version: string)
    requires i < |runs| && runs[i].versionId == version
    requires runs[i].Key() in KeysOf(RunsOf(runs[..i], version))
    ensures !NoDup(KeysOf(RunsOf(runs, version)))
  {
    var before, after := RunsOf(runs[..i], version), RunsOf(runs[i + 1..], version);
    RunsOfConcat(runs[..i], [runs[i]], version);
    RunsOfConcat(runs[..i] + [runs[i]], runs[i + 1..], version);
    assert runs == runs[..i] + [runs[i]] + runs[i + 1..];
    RunsOfUniform([runs[i]], version, true);
    var all := before + [runs[i]] + after;
    assert RunsOf(runs, version) == all;
    var j :| 0 <= j < |before| && before[j].Key() == runs[i].Key();
    assert KeysOf(all)[j] == KeysOf(all)[|before|];
  }

  /** The runs at the given keys. */
  function Select(byKey: map<PairKey, Run>, keys: seq<PairKey>): (runs: seq<Run>)
    requires forall k :: k in keys ==> k in byKey
    ensures |runs| == |keys|
    ensures forall i :: 0 <= i < |keys| ==> runs[i] == byKey[keys[i]]
  {
    seq(|keys|, i requires 0 <= i < |keys| => byKey[keys[i]])
  }

  // ----- Case results and observations -----

  /** Dictionary from run id to case result; a later result of the same run wins. */
  function ResultsByRun(results: seq<CaseResult>): map<string, CaseResult> {
    if results == [] then map[]
    else
      var cr := results[|results| - 1];
      ResultsByRun(results[..|results| - 1])[cr.runId := cr]
  }

  lemma {:induction false} ResultsByRunMembers(results: seq<CaseResult>)
    ensures forall id :: id in ResultsByRun(results) ==>
        ResultsByRun(results)[id] in results && ResultsByRun(results)[id].runId == id
    ensures forall i :: 0 <= i < |results| ==> results[i].runId in ResultsByRun(results)
  {
    if results != [] {
      var n := |results| - 1;
      ResultsByRunMembers(results[..n]);
      assert forall i :: 0 <= i < n ==> results[i] == results[..n][i];
    }
  }

  lemma {:induction false} ResultsByRunExact(results: seq<CaseResult>)
    requires forall i, j :: 0 <= i < j < |results| ==> results[i].runId != results[j].runId
    ensures forall i :: 0 <= i < |results| ==>
              results[i].runId in ResultsByRun(results) && ResultsByRun(results)[results[i].runId] == results[i]
  {
    if results != [] {
      var n := |results| - 1;
      ResultsByRunExact(results[..n]);
      assert forall i :: 0 <= i < n ==> results[i] == results[..n][i];
    }
  }

  lemma ResultsByRunFacts(results: seq<CaseResult>)
    ensures forall id :: id in ResultsByRun(results) ==>
        ResultsByRun(results)[id] in results && ResultsByRun(results)[id].runId == id
    ensures forall i :: 0 <= i < |results| ==> results[i].runId in ResultsByRun(results)
    ensures (forall i, j :: 0 <= i < j < |results| ==> results[i].runId != results[j].runId) ==>
              forall i :: 0 <= i < |results| ==> ResultsByRun(results)[results[i].runId] == results[i]
  {
    ResultsByRunMembers(results);
    if forall i, j :: 0 <= i < j < |results| ==> results[i].runId != results[j].runId {
      ResultsByRunExact(results);
    }
  }

  /** The score of one evaluator; names are distinct, so at most one fits. */
  function ScoreNamed(scores: seq<EvaluatorScore>, evaluator: string): Option<EvaluatorScore> {
    if scores == [] then None
    else if scores[0].evaluator == evaluator then Some(scores[0])
    else ScoreNamed(scores[1..], evaluator)
  }

  /** The dictionary form of the same lookup: the last score of a name wins. */
  function LastScoreNamed(scores: seq<EvaluatorScore>, evaluator: string): Option<EvaluatorScore> {
    if scores == [] then None
    else if scores[|scores| - 1].evaluator == evaluator then Some(scores[|scores| - 1])
    else LastScoreNamed(scores[..|scores| - 1], evaluator)
  }

  lemma {:induction false} ScoreNamedFacts(scores: seq<EvaluatorScore>, evaluator: string)
    ensures match ScoreNamed(scores, evaluator)
            case None => forall i :: 0 <= i < |scores| ==> scores[i].evaluator != evaluator
            case Some(s) => s in scores && s.evaluator == evaluator
  {
    if scores != [] && scores[0].evaluator != evaluator {
      ScoreNamedFacts(scores[1..], evaluator);
      assert forall i :: 1 <= i < |scores| ==> scores[i] == scores[1..][i - 1];
    }
  }

  lemma {:induction false} LastScoreNamedFacts(scores: seq<EvaluatorScore>, evaluator: string)
    ensures match LastScoreNamed(scores, evaluator)
            case None => forall i :: 0 <= i < |scores| ==> scores[i].evaluator != evaluator
            case Some(s) => s in scores && s.evaluator == evaluator
  {
    if scores != [] && scores[|scores| - 1].evaluator != evaluator {
      LastScoreNamedFacts(scores[..|scores| - 1], evaluator);
      assert forall i :: 0 <= i < |scores| - 1 ==> scores[i] == scores[..|scores| - 1][i];
    }
  }

  /** The two lookups agree on every case result. */
  lemma LookupsAgree(scores: seq<EvaluatorScore>, evaluator: string)
    requires DistinctEvaluators(scores)
    ensures ScoreNamed(scores, evaluator) == LastScoreNamed(scores, evaluator)
  {
    ScoreNamedFacts(scores, evaluator);
    LastScoreNamedFacts(scores, evaluator);
    if ScoreNamed(scores, evaluator).Some? && LastScoreNamed(scores, evaluator).Some? {
      var i :| 0 <= i < |scores| && scores[i] == ScoreNamed(scores, evaluator).value;
      var j :| 0 <= j < |scores| && scores[j] == LastScoreNamed(scores, evaluator).value;
      assert i == j;
    }
  }

  /** A metric that averages one observation per run over all runs, failed ones included. */
  datatype Rate = SuccessRate | PassRate(evaluator: string) | MeanScore(evaluator: string) {
    function Name(): string {
      match this
      case SuccessRate => "success_rate"
      case PassRate(e) => e + ".pass_rate"
      case MeanScore(e) => e + ".mean_score"
    }

    function Kind(): MetricKind {
      if MeanScore? then Continuous else Binary
    }
  }

  function ScoreOf(run: Run, results: map<string, CaseResult>, evaluator: string): Option<EvaluatorScore> {
    if run.id in results then ScoreNamed(results[run.id].scores, evaluator) else None
  }

  /** Reading this rate off this run raises nothing. */
  predicate Readable(rate: Rate, run: Run, results: map<string, CaseResult>) {
    rate.SuccessRate? || run.error.Some? || ScoreOf(run, results, rate.evaluator).Some?
  }

  /** The observation of one run: a failed run counts zero. */
  function Obs(rate: Rate, run: Run, results: map<string, CaseResult>): (o: real)
    ensures 0.0 <= o <= 1.0
  {
    if run.error.Some? then 0.0
    else if rate.SuccessRate? then 1.0
    else
      match ScoreOf(run, results, rate.evaluator)
      case None => 0.0
      case Some(s) => if rate.MeanScore? then s.score else if s.passed == Some(true) then 1.0 else 0.0
  }

  function ObsSeq(rate: Rate, runs: seq<Run>, results: map<string, CaseResult>): (s: seq<real>)
    ensures |s| == |runs|
    ensures forall i :: 0 <= i < |s| ==> s[i] == Obs(rate, runs[i], results)
  {
    seq(|runs|, i requires 0 <= i < |runs| => Obs(rate, runs[i], results))
  }

  ghost predicate AllReadable(rate: Rate, runs: seq<Run>, results: map<string, CaseResult>) {
    forall i :: 0 <= i < |runs| ==> Readable(rate, runs[i], results)
  }

  /** The rates of an experiment, in the order both aggregations emit them. */
  function Rates(names: seq<string>): (rates: seq<Rate>)
    ensures |rates| == 1 + 2 * |names|
  {
    if names == [] then [SuccessRate]
    else
      var n := names[|names| - 1];
      Rates(names[..|names| - 1]) + [PassRate(n), MeanScore(n)]
  }
}
