/** A diagnosis does not depend on the order in which runs and case results are read. */
module OrderFree {
  import opened Sequences
  import opened Ordering
  import opened Domain
  import opened Observations
  import opened Pairing
  import opened Grid
  import opened Diagnostics

  // ----- The order of the records is immaterial -----

  lemma {:induction false} RunsOfCounts(runs: seq<Run>, version: string, r: Run)
    ensures multiset(RunsOf(runs, version))[r] == if r.versionId == version then multiset(runs)[r] else 0
  {
    if runs != [] {
      var n := |runs| - 1;
      RunsOfCounts(runs[..n], version, r);
      assert runs == runs[..n] + [runs[n]];
    }
  }

  lemma RunsOfPermuted(a: seq<Run>, b: seq<Run>, version: string)
    requires multiset(a) == multiset(b)
    ensures multiset(RunsOf(a, version)) == multiset(RunsOf(b, version))
  {
    forall r
      ensures multiset(RunsOf(a, version))[r] == multiset(RunsOf(b, version))[r]
    {
      RunsOfCounts(a, version, r);
      RunsOfCounts(b, version, r);
    }
  }

  lemma KeysOfRemove(b: seq<Run>, j: nat)
    requires j < |b|
    ensures KeysOf(RemoveAt(b, j)) == RemoveAt(KeysOf(b), j)
    ensures multiset(KeysOf(b)) == multiset(KeysOf(RemoveAt(b, j))) + multiset{b[j].Key()}
    ensures multiset(b) == multiset(RemoveAt(b, j)) + multiset{b[j]}
  {
    assert b == b[..j] + [b[j]] + b[j + 1..];
    var keys := KeysOf(b);
    assert keys == keys[..j] + [keys[j]] + keys[j + 1..];
    assert KeysOf(RemoveAt(b, j)) == keys[..j] + keys[j + 1..];
  }

  lemma {:induction false} KeysOfPermuted(a: seq<Run>, b: seq<Run>)
    requires multiset(a) == multiset(b)
    ensures multiset(KeysOf(a)) == multiset(KeysOf(b))
  {
    SameMultisetSameLength(a, b);
    if a != [] {
      var n := |a| - 1;
      assert a[n] in b;
      var j :| 0 <= j < |b| && b[j] == a[n];
      KeysOfRemove(a, n);
      KeysOfRemove(b, j);
      RemoveSame(a, n, b, j);
      KeysOfPermuted(RemoveAt(a, n), RemoveAt(b, j));
    }
  }

  lemma SameRunAtKey(a: seq<Run>, b: seq<Run>, k: PairKey)
    requires multiset(a) == multiset(b) && NoDup(KeysOf(a)) && NoDup(KeysOf(b)) && k in KeysOf(a)
    ensures k in ByKey(a) && k in ByKey(b) && ByKey(a)[k] == ByKey(b)[k]
  {
    var i :| 0 <= i < |a| && KeysOf(a)[i] == k;
    SameMultisetSameLength(a, b);
    assert a[i] in b;
    var j :| 0 <= j < |b| && b[j] == a[i];
    ByKeyFacts(a);
    ByKeyFacts(b);
  }

  lemma ByKeyPermuted(a: seq<Run>, b: seq<Run>)
    requires multiset(a) == multiset(b) && NoDup(KeysOf(a))
    ensures NoDup(KeysOf(b)) && ByKey(a) == ByKey(b)
  {
    KeysOfPermuted(a, b);
    NoDupFromMultiset(KeysOf(a), KeysOf(b));
    SameMultisetSameLength(KeysOf(a), KeysOf(b));
    ByKeyDomain(a);
    ByKeyDomain(b);
    forall k | k in ByKey(a)
      ensures k in ByKey(b) && ByKey(a)[k] == ByKey(b)[k]
    {
      SameRunAtKey(a, b, k);
    }
    assert ByKey(a).Keys == ByKey(b).Keys;
  }

  ghost predicate DistinctRunIds(results: seq<CaseResult>) {
    forall i, j :: 0 <= i < j < |results| ==> results[i].runId != results[j].runId
  }

  lemma SameResultAt(a: seq<CaseResult>, b: seq<CaseResult>, id: string)
    requires multiset(a) == multiset(b) && DistinctRunIds(a) && DistinctRunIds(b) && id in ResultsByRun(a)
    ensures id in ResultsByRun(b) && ResultsByRun(a)[id] == ResultsByRun(b)[id]
  {
    ResultsByRunMembers(a);
    ResultsByRunMembers(b);
    ResultsByRunExact(b);
    SameMultisetSameLength(a, b);
    var cr := ResultsByRun(a)[id];
    assert cr in b;
    var j :| 0 <= j < |b| && b[j] == cr;
  }

  lemma ResultsPermuted(a: seq<CaseResult>, b: seq<CaseResult>)
    requires multiset(a) == multiset(b) && DistinctRunIds(a) && DistinctRunIds(b)
    ensures ResultsByRun(a) == ResultsByRun(b)
  {
    forall id | id in ResultsByRun(a)
      ensures id in ResultsByRun(b) && ResultsByRun(a)[id] == ResultsByRun(b)[id]
    {
      SameResultAt(a, b, id);
    }
    forall id | id in ResultsByRun(b)
      ensures id in ResultsByRun(a)
    {
      SameResultAt(b, a, id);
    }
    assert ResultsByRun(a).Keys == ResultsByRun(b).Keys;
  }

  /** The diagnosis does not depend on the order in which runs and case results are read back. */
  lemma DiagnosisForgetsOrder(x: Experiment, o: RunOutcome, o': RunOutcome, drop: real)
    requires multiset(o.runs) == multiset(o'.runs) && multiset(o.caseResults) == multiset(o'.caseResults)
    requires DistinctRunIds(o.caseResults) && DistinctRunIds(o'.caseResults)
    ensures KeysDistinct(x, o.runs) <==> KeysDistinct(x, o'.runs)
    ensures KeysDistinct(x, o.runs) ==>
              PairsOf(x, o.runs) == PairsOf(x, o'.runs) && Findings(x, o, drop) == Findings(x, o', drop)
  {
    RunsOfPermuted(o.runs, o'.runs, x.baselineVersionId);
    RunsOfPermuted(o.runs, o'.runs, x.candidateVersionId);
    var b, b' := RunsOf(o.runs, x.baselineVersionId), RunsOf(o'.runs, x.baselineVersionId);
    var c, c' := RunsOf(o.runs, x.candidateVersionId), RunsOf(o'.runs, x.candidateVersionId);
    if KeysDistinct(x, o.runs) {
      ByKeyPermuted(b, b');
      ByKeyPermuted(c, c');
    } else if KeysDistinct(x, o'.runs) {
      ByKeyPermuted(b', b);
      ByKeyPermuted(c', c);
    }
    ResultsPermuted(o.caseResults, o'.caseResults);
  }

  // ----- A report is determined by its findings -----

  lemma CategoriesDetermined(findings: seq<PairFinding>, a: seq<CategoryCount>, b: seq<CategoryCount>)
    requires IsCategoryCounts(findings, a) && IsCategoryCounts(findings, b)
    ensures a == b
  {
    StrOrder();
    MultisetNoDup(a, b);
    SortedUnique(a, b, CategoryLeq);
  }

  lemma EvaluatorRowsMembers(findings: seq<PairFinding>, keys: seq<string>)
    requires NoDup(keys)
    ensures NoDup(EvaluatorRows(findings, keys))
    ensures forall r: EvaluatorCount :: r in EvaluatorRows(findings, keys) <==>
        r.evaluator in keys && r == EvaluatorRow(findings, r.evaluator)
  {
    var rows := EvaluatorRows(findings, keys);
    forall r: EvaluatorCount | r.evaluator in keys && r == EvaluatorRow(findings, r.evaluator)
      ensures r in rows
    {
      var i :| 0 <= i < |keys| && keys[i] == r.evaluator;
      assert rows[i] == r;
    }
  }

  lemma EvaluatorsDetermined(findings: seq<PairFinding>, a: seq<EvaluatorCount>, b: seq<EvaluatorCount>)
    requires IsEvaluatorCounts(findings, a) && IsEvaluatorCounts(findings, b)
    ensures a == b
  {
    var ka :| CoversKeys(findings, EvaluatorOf, ka) && multiset(a) == multiset(EvaluatorRows(findings, ka));
    var kb :| CoversKeys(findings, EvaluatorOf, kb) && multiset(b) == multiset(EvaluatorRows(findings, kb));
    EvaluatorRowsMembers(findings, ka);
    EvaluatorRowsMembers(findings, kb);
    MultisetNoDup(EvaluatorRows(findings, ka), EvaluatorRows(findings, kb));
    SameMultisetSameLength(a, EvaluatorRows(findings, ka));
    StrOrder();
    SortedUnique(a, b, EvaluatorLeq);
  }

  lemma CaseRowUnique(findings: seq<PairFinding>, key: string, r: RegressingCase, r': RegressingCase)
    requires IsCaseRow(findings, key, r) && IsCaseRow(findings, key, r')
    ensures r == r'
  {
    var g := Group(findings, CaseOf, key);
    OfRepeatMembers(g, r.representative.repeatIndex);
    OfRepeatMembers(g, r'.representative.repeatIndex);
  }

  lemma CaseRowsMembers(findings: seq<PairFinding>, keys: seq<string>, rows: seq<RegressingCase>)
    requires NoDup(keys) && AreCaseRows(findings, keys, rows)
    ensures NoDup(rows)
    ensures forall r :: r in rows <==> r.caseId in keys && IsCaseRow(findings, r.caseId, r)
  {
    assert forall i :: 0 <= i < |keys| ==> rows[i].caseId == keys[i];
    forall r
      ensures r in rows <==> r.caseId in keys && IsCaseRow(findings, r.caseId, r)
    {
      if r in rows {
        var i :| 0 <= i < |rows| && rows[i] == r;
        assert IsCaseRow(findings, keys[i], rows[i]);
      }
      if r.caseId in keys && IsCaseRow(findings, r.caseId, r) {
        var i :| 0 <= i < |keys| && keys[i] == r.caseId;
        CaseRowUnique(findings, r.caseId, r, rows[i]);
      }
    }
  }

  lemma CasesDetermined(findings: seq<PairFinding>, a: seq<RegressingCase>, b: seq<RegressingCase>)
    requires IsRegressingCases(findings, a) && IsRegressingCases(findings, b)
    ensures a == b
  {
    var ka, ra :| CoversKeys(findings, CaseOf, ka) && AreCaseRows(findings, ka, ra) && multiset(a) == multiset(ra);
    var kb, rb :| CoversKeys(findings, CaseOf, kb) && AreCaseRows(findings, kb, rb) && multiset(b) == multiset(rb);
    CaseRowsMembers(findings, ka, ra);
    CaseRowsMembers(findings, kb, rb);
    MultisetNoDup(ra, rb);
    SameMultisetSameLength(a, ra);
    CaseRowsAntisymmetric(findings, a);
    SortedUnique(a, b, CaseLeq);
  }

  lemma CaseRowsAntisymmetric(findings: seq<PairFinding>, rows: seq<RegressingCase>)
    requires forall r :: r in rows ==> IsCaseRow(findings, r.caseId, r)
    ensures Antisymmetric(rows, CaseLeq)
  {
    forall r, r' | r in rows && r' in rows && CaseLeq(r, r') && CaseLeq(r', r)
      ensures r == r'
    {
      StrTotal(r.caseId, r'.caseId);
      CaseRowUnique(findings, r.caseId, r, r');
    }
  }

  /** The whole report is the same for two readings of the same records in different orders. */
  lemma ReportForgetsOrder(
    x: Experiment, o: RunOutcome, o': RunOutcome, drop: real, report: RegressionDiagnostics,
    report': RegressionDiagnostics)
    requires multiset(o.runs) == multiset(o'.runs) && multiset(o.caseResults) == multiset(o'.caseResults)
    requires DistinctRunIds(o.caseResults) && DistinctRunIds(o'.caseResults) && KeysDistinct(x, o.runs)
    requires IsReport(report, Findings(x, o, drop), |PairsOf(x, o.runs).keys|)
    requires IsReport(report', Findings(x, o', drop), |PairsOf(x, o'.runs).keys|)
    ensures report == report'
  {
    DiagnosisForgetsOrder(x, o, o', drop);
    var findings := Findings(x, o, drop);
    CategoriesDetermined(findings, report.categories, report'.categories);
    EvaluatorsDetermined(findings, report.evaluators, report'.evaluators);
    CasesDetermined(findings, report.cases, report'.cases);
  }
}
