/** Findings are conserved: every grouping of a diagnosis accounts for each finding once. */
module Conservation {
  import opened Basics
  import opened Sequences
  import opened Ordering
  import opened Domain
  import opened Observations
  import opened Pairing
  import opened Diagnostics

  // ----- Totals over rows -----

  function Total<T>(s: seq<T>, weight: T -> nat): nat {
    if s == [] then 0 else Total(s[..|s| - 1], weight) + weight(s[|s| - 1])
  }

  lemma {:induction false} TotalConcat<T>(a: seq<T>, b: seq<T>, weight: T -> nat)
    ensures Total(a + b, weight) == Total(a, weight) + Total(b, weight)
    decreases |b|
  {
    if b == [] {
      assert a + b == a;
    } else {
      TotalConcat(a, b[..|b| - 1], weight);
      assert (a + b)[..|a + b| - 1] == a + b[..|b| - 1];
    }
  }

  lemma TotalMiddle<T>(a: seq<T>, x: T, b: seq<T>, weight: T -> nat)
    ensures Total((a + [x]) + b, weight) == Total(a + b, weight) + weight(x)
  {
    TotalConcat(a + [x], b, weight);
    TotalConcat(a, b, weight);
    assert (a + [x])[..|a|] == a;
  }

  lemma {:induction false} TotalForgetsOrder<T>(a: seq<T>, b: seq<T>, weight: T -> nat)
    requires multiset(a) == multiset(b)
    ensures Total(a, weight) == Total(b, weight)
  {
    SameMultisetSameLength(a, b);
    if a != [] {
      var n := |a| - 1;
      assert a[n] in b;
      var j :| 0 <= j < |b| && b[j] == a[n];
      RemoveSame(a, n, b, j);
      assert RemoveAt(a, n) == a[..n];
      TotalForgetsOrder(a[..n], RemoveAt(b, j), weight);
      SplitAt(b, j);
      TotalMiddle(b[..j], b[j], b[j + 1..], weight);
    }
  }

  // ----- Groups partition the findings -----

  /** The sizes of the groups of these keys, added up. */
  function GroupTotal(findings: seq<PairFinding>, tag: PairFinding -> Option<string>, keys: seq<string>): nat {
    if keys == [] then 0
    else GroupTotal(findings, tag, keys[..|keys| - 1]) + |Group(findings, tag, keys[|keys| - 1])|
  }

  function CountTagged(findings: seq<PairFinding>, tag: PairFinding -> Option<string>): nat {
    if findings == [] then 0
    else CountTagged(findings[..|findings| - 1], tag) + if tag(findings[|findings| - 1]).Some? then 1 else 0
  }

  lemma {:induction false} GroupTotalSnoc(
    findings: seq<PairFinding>, f: PairFinding, tag: PairFinding -> Option<string>, keys: seq<string>)
    requires NoDup(keys)
    ensures GroupTotal(findings + [f], tag, keys)
         == GroupTotal(findings, tag, keys) + if tag(f).Some? && tag(f).value in keys then 1 else 0
  {
    if keys != [] {
      var n := |keys| - 1;
      GroupTotalSnoc(findings, f, tag, keys[..n]);
      assert (findings + [f])[..|findings|] == findings;
      assert keys == keys[..n] + [keys[n]];
    }
  }

  lemma {:induction false} GroupTotalEmpty(tag: PairFinding -> Option<string>, keys: seq<string>)
    ensures GroupTotal([], tag, keys) == 0
  {
    if keys != [] {
      GroupTotalEmpty(tag, keys[..|keys| - 1]);
    }
  }

  lemma {:induction false} GroupsPartition(
    findings: seq<PairFinding>, tag: PairFinding -> Option<string>, keys: seq<string>)
    requires NoDup(keys)
    requires forall i :: 0 <= i < |findings| && tag(findings[i]).Some? ==> tag(findings[i]).value in keys
    ensures GroupTotal(findings, tag, keys) == CountTagged(findings, tag)
  {
    if findings == [] {
      GroupTotalEmpty(tag, keys);
    } else {
      var n := |findings| - 1;
      GroupsPartition(findings[..n], tag, keys);
      GroupTotalSnoc(findings[..n], findings[n], tag, keys);
      assert findings[..n] + [findings[n]] == findings;
    }
  }

  lemma CoveredTags(findings: seq<PairFinding>, tag: PairFinding -> Option<string>, keys: seq<string>)
    requires CoversKeys(findings, tag, keys)
    ensures forall i :: 0 <= i < |findings| && tag(findings[i]).Some? ==> tag(findings[i]).value in keys
  {
    forall i | 0 <= i < |findings| && tag(findings[i]).Some?
      ensures tag(findings[i]).value in keys
    {
      assert tag(findings[i]) == Some(tag(findings[i]).value);
    }
  }

  function FindingCountOf(row: RegressingCase): nat { row.findingCount }

  function EvaluatorFindingsOf(row: EvaluatorCount): nat { row.passToFail + row.scoreDrop }

  lemma {:induction false} CaseRowsTotal(findings: seq<PairFinding>, keys: seq<string>, rows: seq<RegressingCase>)
    requires AreCaseRows(findings, keys, rows)
    ensures Total(rows, FindingCountOf) == GroupTotal(findings, CaseOf, keys)
  {
    if keys != [] {
      var n := |keys| - 1;
      CaseRowsTotal(findings, keys[..n], rows[..n]);
      assert IsCaseRow(findings, keys[n], rows[n]);
    }
  }

  lemma {:induction false} AllCasesTagged(findings: seq<PairFinding>)
    ensures CountTagged(findings, CaseOf) == |findings|
  {
    if findings != [] {
      AllCasesTagged(findings[..|findings| - 1]);
    }
  }

  /** Evaluator findings are exactly the ones that name an evaluator. */
  ghost predicate WellKinded(findings: seq<PairFinding>) {
    forall i :: 0 <= i < |findings| ==> (findings[i].kind.ProviderFailure? <==> findings[i].evaluator.None?)
  }

  lemma {:induction false} GroupKinds(findings: seq<PairFinding>, e: string)
    requires WellKinded(findings)
    ensures var g := Group(findings, EvaluatorOf, e); CountKind(g, PassToFail) + CountKind(g, ScoreDrop) == |g|
  {
    if findings != [] {
      var n := |findings| - 1;
      GroupKinds(findings[..n], e);
      var rest := Group(findings[..n], EvaluatorOf, e);
      assert (rest + [findings[n]])[..|rest|] == rest;
    }
  }

  lemma {:induction false} EvaluatorRowsTotal(findings: seq<PairFinding>, keys: seq<string>)
    requires WellKinded(findings)
    ensures Total(EvaluatorRows(findings, keys), EvaluatorFindingsOf) == GroupTotal(findings, EvaluatorOf, keys)
  {
    if keys != [] {
      var n := |keys| - 1;
      EvaluatorRowsTotal(findings, keys[..n]);
      assert EvaluatorRows(findings, keys)[..n] == EvaluatorRows(findings, keys[..n]);
      GroupKinds(findings, keys[n]);
    }
  }

  lemma {:induction false} TaggedOrFailed(findings: seq<PairFinding>)
    requires WellKinded(findings)
    ensures CountTagged(findings, EvaluatorOf) + CountKind(findings, ProviderFailure) == |findings|
  {
    if findings != [] {
      TaggedOrFailed(findings[..|findings| - 1]);
    }
  }

  /** Findings are conserved: the per-case counts add up to all of them, and so do the evaluators'
      lost passes and score drops together with the provider failures. */
  lemma FindingsConserved(report: RegressionDiagnostics, findings: seq<PairFinding>, matched: nat)
    requires IsReport(report, findings, matched) && WellKinded(findings)
    ensures Total(report.cases, FindingCountOf) == |findings|
    ensures Total(report.evaluators, EvaluatorFindingsOf) + CountKind(findings, ProviderFailure) == |findings|
  {
    var ck, rows :|
      CoversKeys(findings, CaseOf, ck) && AreCaseRows(findings, ck, rows) && multiset(report.cases) == multiset(rows);
    TotalForgetsOrder(report.cases, rows, FindingCountOf);
    CaseRowsTotal(findings, ck, rows);
    CoveredTags(findings, CaseOf, ck);
    GroupsPartition(findings, CaseOf, ck);
    AllCasesTagged(findings);
    var ek :|
      CoversKeys(findings, EvaluatorOf, ek) && multiset(report.evaluators) == multiset(EvaluatorRows(findings, ek));
    TotalForgetsOrder(report.evaluators, EvaluatorRows(findings, ek), EvaluatorFindingsOf);
    EvaluatorRowsTotal(findings, ek);
    CoveredTags(findings, EvaluatorOf, ek);
    GroupsPartition(findings, EvaluatorOf, ek);
    TaggedOrFailed(findings);
  }

  // ----- Findings of one pair -----

  lemma {:induction false} ScoreFindingsShape(
    b: Run, c: Run, bm: map<string, EvaluatorScore>, cm: map<string, EvaluatorScore>, names: seq<string>, drop: real)
    requires forall n :: n in names ==> n in bm && n in cm
    ensures var fs := ScoreFindings(b, c, bm, cm, names, drop);
            && WellKinded(fs)
            && forall i :: 0 <= i < |fs| ==> fs[i].Key() == b.Key() && !fs[i].kind.ProviderFailure?
  {
    if names != [] {
      ScoreFindingsShape(b, c, bm, cm, names[..|names| - 1], drop);
    }
  }

  /** A pair whose candidate alone failed has exactly one finding; a failed baseline leaves none;
      every finding carries the key of its pair. */
  lemma PairFindingsShape(b: Run, c: Run, results: map<string, CaseResult>, drop: real)
    ensures var fs := PairFindings(b, c, results, drop);
            && WellKinded(fs)
            && (forall i :: 0 <= i < |fs| ==> fs[i].Key() == b.Key())
            && (c.error.Some? && b.error.None? ==> |fs| == 1 && fs[0].kind == ProviderFailure)
            && (b.error.Some? ==> fs == [])
  {
    if b.error.Some? || c.error.Some? {
      FailedPairFindings(b, c, results, drop);
    } else {
      var bm, cm := ScoresOfRun(b, results), ScoresOfRun(c, results);
      ScoreFindingsShape(b, c, bm, cm, NamesInOrder(bm.Keys * cm.Keys), drop);
    }
  }

  lemma FailedPairFindings(b: Run, c: Run, results: map<string, CaseResult>, drop: real)
    requires b.error.Some? || c.error.Some?
    ensures PairFindings(b, c, results, drop) == FailureFindings(b, c)
  {
    var bm, cm := ScoresOfRun(b, results), ScoresOfRun(c, results);
    assert bm.Keys * cm.Keys == {};
    assert NamesInOrder(bm.Keys * cm.Keys) == [];
  }

  lemma {:induction false} FindingsWellKinded(b: seq<Run>, c: seq<Run>, results: map<string, CaseResult>, drop: real)
    requires |b| == |c|
    ensures WellKinded(FindingsOfPairs(b, c, results, drop))
  {
    if b != [] {
      var n := |b| - 1;
      FindingsWellKinded(b[..n], c[..n], results, drop);
      PairFindingsShape(b[n], c[n], results, drop);
    }
  }

  /** Conservation holds of every report the diagnosis produces. */
  lemma ReportConserves(x: Experiment, o: RunOutcome, drop: real, report: RegressionDiagnostics)
    requires IsReport(report, Findings(x, o, drop), |PairsOf(x, o.runs).keys|)
    ensures Total(report.cases, FindingCountOf) == |report.findings|
    ensures Total(report.evaluators, EvaluatorFindingsOf) + CountKind(report.findings, ProviderFailure)
        == |report.findings|
  {
    var p := PairsOf(x, o.runs);
    FindingsWellKinded(p.baseline, p.candidate, ResultsByRun(o.caseResults), drop);
    FindingsConserved(report, Findings(x, o, drop), |p.keys|);
  }
}
