/** Case-level regression diagnostics: findings per pair, and their groupings. */
module Diagnostics {
  import opened Basics
  import opened Sequences
  import opened Ordering
  import opened Domain
  import opened Observations
  import opened Pairing

  const MIN_SCORE_DROP := 0.05

  datatype FindingKind = ProviderFailure | PassToFail | ScoreDrop

  datatype PairFinding = PairFinding(
    caseId: string,
    repeatIndex: nat,
    baselineRunId: string,
    candidateRunId: string,
    category: string,
    kind: FindingKind,
    evaluator: Option<string>)
  {
    function Key(): PairKey { PairKey(caseId, repeatIndex) }
  }

  const EVALUATOR_CATEGORY: map<string, string> := map[
    "retrieval_recall" := "retrieval_regression",
    "context_precision" := "retrieval_regression",
    "groundedness_lexical" := "groundedness_regression",
    "tool_selection" := "tool_selection_regression",
    "tool_arguments" := "tool_argument_regression",
    "tool_success" := "tool_execution_failure",
    "tool_trajectory" := "trajectory_regression"]

  function CategoryFor(evaluator: string): string {
    if evaluator in EVALUATOR_CATEGORY then EVALUATOR_CATEGORY[evaluator]
    else if "groundedness" <= evaluator then "groundedness_regression"
    else "evaluator_regression"
  }

  /** Which evaluators each category speaks of. */
  lemma CategoryMeaning(e: string)
    ensures CategoryFor(e) == "retrieval_regression" <==> e in {"retrieval_recall", "context_precision"}
    ensures CategoryFor(e) == "groundedness_regression" <==> "groundedness" <= e
    ensures CategoryFor(e) == "tool_selection_regression" <==> e == "tool_selection"
    ensures CategoryFor(e) == "tool_argument_regression" <==> e == "tool_arguments"
    ensures CategoryFor(e) == "tool_execution_failure" <==> e == "tool_success"
    ensures CategoryFor(e) == "trajectory_regression" <==> e == "tool_trajectory"
    ensures CategoryFor(e) == "evaluator_regression" <==>
              !("groundedness" <= e) && e !in EVALUATOR_CATEGORY
  {
    ListedGroundedness(e);
    CategoryNamesDiffer();
  }

  lemma ListedGroundedness(e: string)
    ensures e in EVALUATOR_CATEGORY && "groundedness" <= e <==> e == "groundedness_lexical"
  {
    assert "groundedness_lexical"[..12] == "groundedness";
    assert e in EVALUATOR_CATEGORY && "groundedness" <= e ==> e[0] == 'g';
  }

  lemma CategoryNamesDiffer()
    ensures |"retrieval_regression"| == 20 && |"groundedness_regression"| == 23 && |"tool_selection_regression"| == 25
    ensures |"tool_argument_regression"| == 24 && |"tool_execution_failure"| == 22
    ensures |"trajectory_regression"| == 21 && |"evaluator_regression"| == 20
    ensures "retrieval_regression"[0] == 'r' && "evaluator_regression"[0] == 'e'
  {
  }

  // ----- Findings of one pair -----

  /** Evaluator name to score; a later score of a name would win. */
  function ScoreMap(scores: seq<EvaluatorScore>): map<string, EvaluatorScore> {
    if scores == [] then map[]
    else
      var s := scores[|scores| - 1];
      ScoreMap(scores[..|scores| - 1])[s.evaluator := s]
  }

  /** `_score_map`: nothing for a failed run or one without a case result. */
  function ScoresOfRun(run: Run, results: map<string, CaseResult>): map<string, EvaluatorScore> {
    if run.error.Some? || run.id !in results then map[] else ScoreMap(results[run.id].scores)
  }

  function FindingOf(b: Run, c: Run, category: string, kind: FindingKind, evaluator: Option<string>): PairFinding {
    PairFinding(b.caseId, b.repeatIndex, b.id, c.id, category, kind, evaluator)
  }

  /** A brand-new provider failure on the candidate side. */
  function FailureFindings(b: Run, c: Run): seq<PairFinding> {
    if c.error.Some? && b.error.None?
    then [FindingOf(b, c, "provider_execution_failure", ProviderFailure, None)]
    else []
  }

  /** What one evaluator has to report on a pair: a lost pass, else a score drop, else nothing. */
  function ScoreFinding(
    b: Run, c: Run, name: string, bs: EvaluatorScore, cs: EvaluatorScore, drop: real): seq<PairFinding>
  {
    if bs.passed == Some(true) && cs.passed == Some(false) then
      [FindingOf(b, c, CategoryFor(name), PassToFail, Some(name))]
    else if cs.score < bs.score - drop then
      [FindingOf(b, c, CategoryFor(name), ScoreDrop, Some(name))]
    else []
  }

  /** The findings of the given evaluators, in order. */
  function ScoreFindings(
    b: Run, c: Run, bm: map<string, EvaluatorScore>, cm: map<string, EvaluatorScore>, names: seq<string>, drop: real
  ): seq<PairFinding>
    requires forall n :: n in names ==> n in bm && n in cm
  {
    if names == [] then []
    else
      var n := names[|names| - 1];
      ScoreFindings(b, c, bm, cm, names[..|names| - 1], drop) + ScoreFinding(b, c, n, bm[n], cm[n], drop)
  }

  ghost function PairFindings(b: Run, c: Run, results: map<string, CaseResult>, drop: real): seq<PairFinding> {
    var bm, cm := ScoresOfRun(b, results), ScoresOfRun(c, results);
    FailureFindings(b, c) + ScoreFindings(b, c, bm, cm, NamesInOrder(bm.Keys * cm.Keys), drop)
  }

  lemma {:induction false} ScoreMapIsLookup(scores: seq<EvaluatorScore>, e: string)
    ensures e in ScoreMap(scores) <==> LastScoreNamed(scores, e).Some?
    ensures e in ScoreMap(scores) ==> Some(ScoreMap(scores)[e]) == LastScoreNamed(scores, e)
  {
    if scores != [] {
      ScoreMapIsLookup(scores[..|scores| - 1], e);
    }
  }

  lemma RunScores(run: Run, results: map<string, CaseResult>, e: string)
    requires run.error.None?
    ensures e in ScoresOfRun(run, results) <==> ScoreOf(run, results, e).Some?
    ensures e in ScoresOfRun(run, results) ==> Some(ScoresOfRun(run, results)[e]) == ScoreOf(run, results, e)
  {
    if run.id in results {
      ScoreMapIsLookup(results[run.id].scores, e);
      LookupsAgree(results[run.id].scores, e);
    }
  }

  // ----- Which findings a pair calls for -----

  predicate OfRuns(f: PairFinding, b: Run, c: Run) {
    f.caseId == b.caseId && f.repeatIndex == b.repeatIndex && f.baselineRunId == b.id && f.candidateRunId == c.id
  }

  /** `f` reports that evaluator `e`'s verdict went from passed to failed, or else that its score fell by
      more than `drop`. */
  predicate ReportsScore(
    f: PairFinding, b: Run, c: Run, e: string, bs: EvaluatorScore, cs: EvaluatorScore, drop: real)
  {
    && OfRuns(f, b, c) && f.evaluator == Some(e) && f.category == CategoryFor(e)
    && if bs.passed == Some(true) && cs.passed == Some(false) then f.kind == PassToFail
       else f.kind == ScoreDrop && cs.score < bs.score - drop
  }

  /** `f` is called for: the candidate failed where the baseline did not, or both succeeded and an evaluator
      that scored both has something to report. */
  ghost predicate IsFinding(f: PairFinding, b: Run, c: Run, results: map<string, CaseResult>, drop: real) {
    match f.evaluator
    case None =>
      && OfRuns(f, b, c) && f.kind == ProviderFailure && f.category == "provider_execution_failure"
      && b.error.None? && c.error.Some?
    case Some(e) =>
      && b.error.None? && c.error.None?
      && ScoreOf(b, results, e).Some? && ScoreOf(c, results, e).Some?
      && ReportsScore(f, b, c, e, ScoreOf(b, results, e).value, ScoreOf(c, results, e).value, drop)
  }

  /** Findings are in evaluator order, at most one of each; a provider failure stands alone. */
  ghost predicate InEvaluatorOrder(fs: seq<PairFinding>) {
    forall i, j :: 0 <= i < j < |fs| ==>
      && fs[i].evaluator.Some? && fs[j].evaluator.Some? && fs[i].evaluator != fs[j].evaluator
      && StrLeq(fs[i].evaluator.value, fs[j].evaluator.value)
  }

  lemma {:induction false} ScoreFindingsMembers(
    b: Run, c: Run, bm: map<string, EvaluatorScore>, cm: map<string, EvaluatorScore>, names: seq<string>, drop: real,
    f: PairFinding)
    requires forall n :: n in names ==> n in bm && n in cm
    ensures f in ScoreFindings(b, c, bm, cm, names, drop)
       <==> f.evaluator.Some? && f.evaluator.value in names
            && f in ScoreFinding(b, c, f.evaluator.value, bm[f.evaluator.value], cm[f.evaluator.value], drop)
  {
    if names != [] {
      var n := |names| - 1;
      ScoreFindingsMembers(b, c, bm, cm, names[..n], drop, f);
      assert names == names[..n] + [names[n]];
    }
  }

  lemma {:induction false} ScoreFindingsOrdered(
    b: Run, c: Run, bm: map<string, EvaluatorScore>, cm: map<string, EvaluatorScore>, names: seq<string>, drop: real)
    requires forall n :: n in names ==> n in bm && n in cm
    requires NoDup(names) && Sorted(names, StrLeq)
    ensures InEvaluatorOrder(ScoreFindings(b, c, bm, cm, names, drop))
  {
    if names != [] {
      var n := |names| - 1;
      var before := ScoreFindings(b, c, bm, cm, names[..n], drop);
      ScoreFindingsOrdered(b, c, bm, cm, names[..n], drop);
      forall i | 0 <= i < |before|
        ensures before[i].evaluator.Some? && before[i].evaluator != Some(names[n])
        ensures StrLeq(before[i].evaluator.value, names[n])
      {
        ScoreFindingsMembers(b, c, bm, cm, names[..n], drop, before[i]);
        assert before[i] in before;
        var j :| 0 <= j < n && names[..n][j] == before[i].evaluator.value;
        assert names[j] != names[n] && StrLeq(names[j], names[n]);
      }
    }
  }

  /** The findings of a pair are exactly those called for, at most one for an evaluator, in name order. */
  lemma PairFindingsExactly(b: Run, c: Run, results: map<string, CaseResult>, drop: real)
    ensures forall f :: f in PairFindings(b, c, results, drop) <==> IsFinding(f, b, c, results, drop)
    ensures InEvaluatorOrder(PairFindings(b, c, results, drop))
  {
    PairFindingsOrdered(b, c, results, drop);
    forall f
      ensures f in PairFindings(b, c, results, drop) <==> IsFinding(f, b, c, results, drop)
    {
      OneFindingExactly(b, c, results, drop, f);
    }
  }

  lemma PairFindingsOrdered(b: Run, c: Run, results: map<string, CaseResult>, drop: real)
    ensures InEvaluatorOrder(PairFindings(b, c, results, drop))
  {
    var bm, cm := ScoresOfRun(b, results), ScoresOfRun(c, results);
    var names := NamesInOrder(bm.Keys * cm.Keys);
    if b.error.Some? || c.error.Some? {
      assert bm.Keys * cm.Keys == {};
      assert names == [];
    } else {
      ScoreFindingsOrdered(b, c, bm, cm, names, drop);
      assert [] + ScoreFindings(b, c, bm, cm, names, drop) == ScoreFindings(b, c, bm, cm, names, drop);
    }
  }

  lemma OneScoreFinding(
    f: PairFinding, b: Run, c: Run, e: string, bs: EvaluatorScore, cs: EvaluatorScore, drop: real)
    ensures f in ScoreFinding(b, c, e, bs, cs, drop) <==> ReportsScore(f, b, c, e, bs, cs, drop)
  {
  }

  lemma OneFindingExactly(b: Run, c: Run, results: map<string, CaseResult>, drop: real, f: PairFinding)
    ensures f in PairFindings(b, c, results, drop) <==> IsFinding(f, b, c, results, drop)
  {
    var bm, cm := ScoresOfRun(b, results), ScoresOfRun(c, results);
    var names := NamesInOrder(bm.Keys * cm.Keys);
    ScoreFindingsMembers(b, c, bm, cm, names, drop, f);
    if f.evaluator.Some? {
      var e := f.evaluator.value;
      assert f !in FailureFindings(b, c);
      if b.error.None? && c.error.None? {
        RunScores(b, results, e);
        RunScores(c, results, e);
        if e in names {
          OneScoreFinding(f, b, c, e, bm[e], cm[e], drop);
        }
      }
    }
  }

  /** A pair on which nothing got worse, or got worse by no more than `drop`, has no finding. */
  lemma NothingWorseNothingFound(b: Run, c: Run, results: map<string, CaseResult>, drop: real)
    requires b.error.None? ==> c.error.None?
    requires forall e :: ScoreOf(b, results, e).Some? && ScoreOf(c, results, e).Some? ==>
               var bs, cs := ScoreOf(b, results, e).value, ScoreOf(c, results, e).value;
               !(bs.passed == Some(true) && cs.passed == Some(false)) && cs.score >= bs.score - drop
    ensures PairFindings(b, c, results, drop) == []
  {
    var fs := PairFindings(b, c, results, drop);
    forall f
      ensures f !in fs
    {
      NotAFinding(b, c, results, drop, f);
      OneFindingExactly(b, c, results, drop, f);
    }
    if fs != [] {
      HasMember(fs);
    }
  }

  lemma NotAFinding(b: Run, c: Run, results: map<string, CaseResult>, drop: real, f: PairFinding)
    requires b.error.None? ==> c.error.None?
    requires forall e :: ScoreOf(b, results, e).Some? && ScoreOf(c, results, e).Some? ==>
               var bs, cs := ScoreOf(b, results, e).value, ScoreOf(c, results, e).value;
               !(bs.passed == Some(true) && cs.passed == Some(false)) && cs.score >= bs.score - drop
    ensures !IsFinding(f, b, c, results, drop)
  {
  }

  lemma OneMoreName(
    b: Run, c: Run, bm: map<string, EvaluatorScore>, cm: map<string, EvaluatorScore>, names: seq<string>, i: nat,
    drop: real)
    requires i < |names| && forall n :: n in names ==> n in bm && n in cm
    ensures ScoreFindings(b, c, bm, cm, names[..i + 1], drop)
         == ScoreFindings(b, c, bm, cm, names[..i], drop)
            + ScoreFinding(b, c, names[i], bm[names[i]], cm[names[i]], drop)
  {
    assert names[..i + 1][..i] == names[..i];
  }

  /** The loop over the evaluators that scored both runs. */
  method FindOnScores(
    b: Run, c: Run, bm: map<string, EvaluatorScore>, cm: map<string, EvaluatorScore>, names: seq<string>, drop: real,
    before: seq<PairFinding>) returns (findings: seq<PairFinding>)
    requires forall n :: n in names ==> n in bm && n in cm
    ensures findings == before + ScoreFindings(b, c, bm, cm, names, drop)
  {
    findings := before;
    for i := 0 to |names|
      invariant findings == before + ScoreFindings(b, c, bm, cm, names[..i], drop)
    {
      var n := names[i];
      OneMoreName(b, c, bm, cm, names, i, drop);
      findings := findings + ScoreFinding(b, c, n, bm[n], cm[n], drop);
    }
    assert names[..|names|] == names;
  }

  /** `_pair_findings`. */
  method FindOnPair(b: Run, c: Run, results: map<string, CaseResult>, drop: real) returns (findings: seq<PairFinding>)
    ensures findings == PairFindings(b, c, results, drop)
    ensures (forall f :: f in findings <==> IsFinding(f, b, c, results, drop)) && InEvaluatorOrder(findings)
  {
    PairFindingsExactly(b, c, results, drop);
    var bm, cm := ScoresOfRun(b, results), ScoresOfRun(c, results);
    StrOrder();
    var names := SortSet(bm.Keys * cm.Keys, StrLeq);
    findings := FindOnScores(b, c, bm, cm, names, drop, FailureFindings(b, c));
  }

  // ----- Findings of an outcome -----

  ghost function FindingsOfPairs(
    b: seq<Run>, c: seq<Run>, results: map<string, CaseResult>, drop: real): seq<PairFinding>
    requires |b| == |c|
  {
    if b == [] then []
    else
      var n := |b| - 1;
      FindingsOfPairs(b[..n], c[..n], results, drop) + PairFindings(b[n], c[n], results, drop)
  }

  ghost function Findings(x: Experiment, o: RunOutcome, drop: real): seq<PairFinding> {
    var p := PairsOf(x, o.runs);
    FindingsOfPairs(p.baseline, p.candidate, ResultsByRun(o.caseResults), drop)
  }

  lemma OneMorePair(b: seq<Run>, c: seq<Run>, i: nat, results: map<string, CaseResult>, drop: real)
    requires |b| == |c| && i < |b|
    ensures FindingsOfPairs(b[..i + 1], c[..i + 1], results, drop)
         == FindingsOfPairs(b[..i], c[..i], results, drop) + PairFindings(b[i], c[i], results, drop)
  {
    assert b[..i + 1][..i] == b[..i] && c[..i + 1][..i] == c[..i];
  }

  method FindOnPairs(p: Pairs, results: map<string, CaseResult>, drop: real) returns (findings: seq<PairFinding>)
    requires p.Aligned()
    ensures findings == FindingsOfPairs(p.baseline, p.candidate, results, drop)
  {
    findings := [];
    for i := 0 to |p.keys|
      invariant findings == FindingsOfPairs(p.baseline[..i], p.candidate[..i], results, drop)
    {
      OneMorePair(p.baseline, p.candidate, i, results, drop);
      var more := FindOnPair(p.baseline[i], p.candidate[i], results, drop);
      findings := findings + more;
    }
    assert p.baseline[..|p.keys|] == p.baseline && p.candidate[..|p.keys|] == p.candidate;
  }

  // ----- Grouping -----

  datatype CategoryCount = CategoryCount(category: string, pairs: nat, cases: nat)

  datatype EvaluatorCount = EvaluatorCount(evaluator: string, pairs: nat, cases: nat, passToFail: nat, scoreDrop: nat)

  datatype PairRef = PairRef(repeatIndex: nat, baselineRunId: string, candidateRunId: string)

  datatype RegressingCase = RegressingCase(
    caseId: string,
    categories: seq<string>,
    evaluators: seq<string>,
    providerFailure: bool,
    findingCount: nat,
    representative: PairRef)

  datatype RegressionDiagnostics = RegressionDiagnostics(
    matchedPairs: nat,
    regressingPairs: nat,
    regressingCases: nat,
    categories: seq<CategoryCount>,
    evaluators: seq<EvaluatorCount>,
    cases: seq<RegressingCase>,
    findings: seq<PairFinding>,
    available: bool)

  function CaseOf(f: PairFinding): Option<string> { Some(f.caseId) }

  function CategoryOf(f: PairFinding): Option<string> { Some(f.category) }

  function EvaluatorOf(f: PairFinding): Option<string> { f.evaluator }

  /** The findings that fall under `key`, in order. */
  function Group(findings: seq<PairFinding>, tag: PairFinding -> Option<string>, key: string): seq<PairFinding> {
    if findings == [] then []
    else
      var rest, f := Group(findings[..|findings| - 1], tag, key), findings[|findings| - 1];
      if tag(f) == Some(key) then rest + [f] else rest
  }

  function OfRepeat(group: seq<PairFinding>, r: nat): seq<PairFinding> {
    if group == [] then []
    else
      var rest, f := OfRepeat(group[..|group| - 1], r), group[|group| - 1];
      if f.repeatIndex == r then rest + [f] else rest
  }

  function CountKind(findings: seq<PairFinding>, kind: FindingKind): nat {
    if findings == [] then 0
    else CountKind(findings[..|findings| - 1], kind) + if findings[|findings| - 1].kind == kind then 1 else 0
  }

  function PairKeys(findings: seq<PairFinding>): set<PairKey> {
    set i | 0 <= i < |findings| :: findings[i].Key()
  }

  function CaseIds(findings: seq<PairFinding>): set<string> {
    set i | 0 <= i < |findings| :: findings[i].caseId
  }

  function Categories(findings: seq<PairFinding>): set<string> {
    set i | 0 <= i < |findings| :: findings[i].category
  }

  function Evaluators(findings: seq<PairFinding>): set<string> {
    set i | 0 <= i < |findings| && findings[i].evaluator.Some? :: findings[i].evaluator.value
  }

  /** `keys` lists, once each, the keys under which findings fall. */
  ghost predicate CoversKeys(findings: seq<PairFinding>, tag: PairFinding -> Option<string>, keys: seq<string>) {
    NoDup(keys) && forall k :: k in keys <==> exists i :: 0 <= i < |findings| && tag(findings[i]) == Some(k)
  }

  function GroupIn(groups: map<string, seq<PairFinding>>, key: string): seq<PairFinding> {
    if key in groups then groups[key] else []
  }

  /** Insertion-ordered grouping: the keys in order of first appearance, and each key's findings. */
  method GroupBy(findings: seq<PairFinding>, tag: PairFinding -> Option<string>)
      returns (keys: seq<string>, groups: map<string, seq<PairFinding>>)
    ensures CoversKeys(findings, tag, keys)
    ensures forall k :: k in keys <==> k in groups
    ensures forall k :: GroupIn(groups, k) == Group(findings, tag, k)
  {
    keys, groups := [], map[];
    for i := 0 to |findings|
      invariant CoversKeys(findings[..i], tag, keys)
      invariant forall k :: k in keys <==> k in groups
      invariant forall k :: GroupIn(groups, k) == Group(findings[..i], tag, k)
    {
      var f := findings[i];
      assert findings[..i + 1][..i] == findings[..i];
      CoverMore(findings, tag, keys, i);
      if tag(f).Some? {
        var k := tag(f).value;
        if k in groups {
          groups := groups[k := groups[k] + [f]];
        } else {
          keys := keys + [k];
          groups := groups[k := [f]];
        }
      }
    }
    assert findings[..|findings|] == findings;
  }

  lemma CoverMore(findings: seq<PairFinding>, tag: PairFinding -> Option<string>, keys: seq<string>, i: nat)
    requires i < |findings| && CoversKeys(findings[..i], tag, keys)
    ensures var k := tag(findings[i]);
            if k.Some? && k.value !in keys then CoversKeys(findings[..i + 1], tag, keys + [k.value])
            else CoversKeys(findings[..i + 1], tag, keys)
  {
    var before, after := findings[..i], findings[..i + 1];
    forall k
      ensures (exists j :: 0 <= j < |after| && tag(after[j]) == Some(k))
         <==> (exists j :: 0 <= j < |before| && tag(before[j]) == Some(k)) || tag(findings[i]) == Some(k)
    {
      if j :| 0 <= j < |before| && tag(before[j]) == Some(k) {
        assert after[j] == before[j];
      }
      if j :| 0 <= j < |after| && tag(after[j]) == Some(k) && j != i {
        assert before[j] == after[j];
      }
      assert after[i] == findings[i];
    }
  }

  // ----- Categories -----

  predicate CategoryLeq(a: CategoryCount, b: CategoryCount) {
    a.pairs > b.pairs || (a.pairs == b.pairs && StrLeq(a.category, b.category))
  }

  function CountCategory(category: string, g: seq<PairFinding>): CategoryCount {
    CategoryCount(category, |PairKeys(g)|, |CaseIds(g)|)
  }

  function CategoryRow(findings: seq<PairFinding>, category: string): CategoryCount {
    CountCategory(category, Group(findings, CategoryOf, category))
  }

  ghost predicate IsCategoryCounts(findings: seq<PairFinding>, counts: seq<CategoryCount>) {
    && Sorted(counts, CategoryLeq) && NoDup(counts)
    && forall c :: c in counts <==> c == CategoryRow(findings, c.category) && c.category in Categories(findings)
  }

  lemma CategoryOrder()
    ensures TotalPreorder(CategoryLeq)
  {
    StrOrder();
  }

  /** The rows in the order listed by `keys`, before sorting. */
  function CategoryRows(findings: seq<PairFinding>, keys: seq<string>): (rows: seq<CategoryCount>)
    ensures |rows| == |keys|
    ensures forall i :: 0 <= i < |rows| ==> rows[i] == CategoryRow(findings, keys[i])
  {
    seq(|keys|, i requires 0 <= i < |keys| => CategoryRow(findings, keys[i]))
  }

  lemma OneMoreCategory(findings: seq<PairFinding>, keys: seq<string>, i: nat)
    requires i < |keys|
    ensures CategoryRows(findings, keys[..i + 1])
        == CategoryRows(findings, keys[..i]) + [CategoryRow(findings, keys[i])]
  {
  }

  /** One row for each category that occurs. */
  lemma CategoryRowsComplete(findings: seq<PairFinding>, keys: seq<string>)
    requires CoversKeys(findings, CategoryOf, keys)
    ensures var rows := CategoryRows(findings, keys);
            && NoDup(rows)
            && forall c :: c in rows <==> c == CategoryRow(findings, c.category) && c.category in Categories(findings)
  {
    var rows := CategoryRows(findings, keys);
    forall c
      ensures c in rows <==> c == CategoryRow(findings, c.category) && c.category in Categories(findings)
    {
      if c in rows {
        var i :| 0 <= i < |rows| && rows[i] == c;
        assert keys[i] in keys;
      }
      if c == CategoryRow(findings, c.category) && c.category in Categories(findings) {
        var j :| 0 <= j < |findings| && findings[j].category == c.category;
        assert CategoryOf(findings[j]) == Some(c.category);
        var i :| 0 <= i < |keys| && keys[i] == c.category;
        assert rows[i] == c;
      }
    }
  }

  /** `_category_counts`. */
  method CategoryCounts(findings: seq<PairFinding>) returns (counts: seq<CategoryCount>)
    ensures IsCategoryCounts(findings, counts)
  {
    var keys, groups := GroupBy(findings, CategoryOf);
    var rows: seq<CategoryCount> := [];
    for i := 0 to |keys|
      invariant rows == CategoryRows(findings, keys[..i])
    {
      OneMoreCategory(findings, keys, i);
      rows := rows + [CountCategory(keys[i], GroupIn(groups, keys[i]))];
    }
    assert keys[..|keys|] == keys;
    counts := Sort(rows, CategoryLeq);
    CategoryRowsComplete(findings, keys);
    CategoryOrder();
    SortSorts(rows, CategoryLeq);
    SortPermutes(rows, CategoryLeq);
    NoDupFromMultiset(rows, counts);
  }

  // ----- Evaluators -----

  predicate EvaluatorLeq(a: EvaluatorCount, b: EvaluatorCount) {
    a.pairs > b.pairs || (a.pairs == b.pairs && StrLeq(a.evaluator, b.evaluator))
  }

  function CountEvaluator(evaluator: string, g: seq<PairFinding>): EvaluatorCount {
    EvaluatorCount(evaluator, |PairKeys(g)|, |CaseIds(g)|, CountKind(g, PassToFail), CountKind(g, ScoreDrop))
  }

  function EvaluatorRow(findings: seq<PairFinding>, evaluator: string): EvaluatorCount {
    CountEvaluator(evaluator, Group(findings, EvaluatorOf, evaluator))
  }

  /** The rows in the order listed by `keys`, before sorting. */
  function EvaluatorRows(findings: seq<PairFinding>, keys: seq<string>): (rows: seq<EvaluatorCount>)
    ensures |rows| == |keys|
    ensures forall i :: 0 <= i < |rows| ==> rows[i] == EvaluatorRow(findings, keys[i])
  {
    seq(|keys|, i requires 0 <= i < |keys| => EvaluatorRow(findings, keys[i]))
  }

  lemma OneMoreEvaluator(findings: seq<PairFinding>, keys: seq<string>, i: nat)
    requires i < |keys|
    ensures EvaluatorRows(findings, keys[..i + 1])
        == EvaluatorRows(findings, keys[..i]) + [EvaluatorRow(findings, keys[i])]
  {
  }

  ghost predicate IsEvaluatorCounts(findings: seq<PairFinding>, counts: seq<EvaluatorCount>) {
    && Sorted(counts, EvaluatorLeq)
    && exists keys ::
         CoversKeys(findings, EvaluatorOf, keys) && multiset(counts) == multiset(EvaluatorRows(findings, keys))
  }

  lemma EvaluatorOrder()
    ensures TotalPreorder(EvaluatorLeq)
  {
    StrOrder();
  }

  /** `_evaluator_counts`. */
  method EvaluatorCounts(findings: seq<PairFinding>) returns (counts: seq<EvaluatorCount>)
    ensures IsEvaluatorCounts(findings, counts)
  {
    var keys, groups := GroupBy(findings, EvaluatorOf);
    var rows: seq<EvaluatorCount> := [];
    for i := 0 to |keys|
      invariant rows == EvaluatorRows(findings, keys[..i])
    {
      OneMoreEvaluator(findings, keys, i);
      rows := rows + [CountEvaluator(keys[i], GroupIn(groups, keys[i]))];
    }
    assert keys[..|keys|] == keys;
    counts := Sort(rows, EvaluatorLeq);
    EvaluatorOrder();
    SortSorts(rows, EvaluatorLeq);
    SortPermutes(rows, EvaluatorLeq);
  }

  // ----- Cases -----

  predicate CaseLeq(a: RegressingCase, b: RegressingCase) {
    a.findingCount > b.findingCount || (a.findingCount == b.findingCount && StrLeq(a.caseId, b.caseId))
  }

  /** `r` has the most findings of the group; among equals it is the lowest repeat. */
  ghost predicate IsRepresentative(group: seq<PairFinding>, r: nat) {
    && OfRepeat(group, r) != []
    && forall r': nat :: OfRepeat(group, r') != [] && r' != r ==>
      || |OfRepeat(group, r')| < |OfRepeat(group, r)|
      || (|OfRepeat(group, r')| == |OfRepeat(group, r)| && r < r')
  }

  /** The row of one case, given its findings. */
  ghost predicate IsCaseRow(findings: seq<PairFinding>, caseId: string, row: RegressingCase) {
    var g := Group(findings, CaseOf, caseId);
    && row.caseId == caseId
    && row.categories == NamesInOrder(Categories(g))
    && row.evaluators == NamesInOrder(Evaluators(g))
    && (row.providerFailure <==> exists i :: 0 <= i < |g| && g[i].kind.ProviderFailure?)
    && row.findingCount == |g|
    && IsRepresentative(g, row.representative.repeatIndex)
    && var first := OfRepeat(g, row.representative.repeatIndex)[0];
       row.representative == PairRef(first.repeatIndex, first.baselineRunId, first.candidateRunId)
  }

  /** One row per case with findings, in any order. */
  ghost predicate AreCaseRows(findings: seq<PairFinding>, keys: seq<string>, rows: seq<RegressingCase>) {
    |rows| == |keys| && forall i :: 0 <= i < |keys| ==> IsCaseRow(findings, keys[i], rows[i])
  }

  ghost predicate IsRegressingCases(findings: seq<PairFinding>, cases: seq<RegressingCase>) {
    && Sorted(cases, CaseLeq)
    && exists keys, rows ::
         CoversKeys(findings, CaseOf, keys) && AreCaseRows(findings, keys, rows) && multiset(cases) == multiset(rows)
  }

  lemma CaseOrder()
    ensures TotalPreorder(CaseLeq)
  {
    StrOrder();
  }

  lemma {:induction false} OfRepeatMembers(group: seq<PairFinding>, r: nat)
    ensures OfRepeat(group, r) != [] <==> exists i :: 0 <= i < |group| && group[i].repeatIndex == r
    ensures forall i :: 0 <= i < |OfRepeat(group, r)| ==>
        OfRepeat(group, r)[i] in group && OfRepeat(group, r)[i].repeatIndex == r
  {
    if group != [] {
      var n := |group| - 1;
      OfRepeatMembers(group[..n], r);
      assert group == group[..n] + [group[n]];
      if i :| 0 <= i < |group| && group[i].repeatIndex == r && i != n {
        assert group[..n][i] == group[i];
      }
      if i :| 0 <= i < n && group[..n][i].repeatIndex == r {
        assert group[i] == group[..n][i];
      }
    }
  }

  /** The representative repeat: `min` by (-count, repeat). */
  method ChooseRepresentative(group: seq<PairFinding>) returns (r: nat)
    requires group != []
    ensures IsRepresentative(group, r)
  {
    r := group[0].repeatIndex;
    OfRepeatMembers(group, r);
    for i := 1 to |group|
      invariant OfRepeat(group, r) != []
      invariant forall k :: 0 <= k < i && group[k].repeatIndex != r ==> Beats(group, r, group[k].repeatIndex)
    {
      var r' := group[i].repeatIndex;
      OfRepeatMembers(group, r');
      if r' != r && !Beats(group, r, r') {
        r := r';
      }
    }
    forall r': nat | OfRepeat(group, r') != [] && r' != r
      ensures Beats(group, r, r')
    {
      OfRepeatMembers(group, r');
    }
  }

  predicate Beats(group: seq<PairFinding>, r: nat, r': nat) {
    || |OfRepeat(group, r')| < |OfRepeat(group, r)|
    || (|OfRepeat(group, r')| == |OfRepeat(group, r)| && r < r')
  }

  method CaseRow(findings: seq<PairFinding>, caseId: string, g: seq<PairFinding>) returns (row: RegressingCase)
    requires g == Group(findings, CaseOf, caseId) && g != []
    ensures IsCaseRow(findings, caseId, row)
  {
    var r := ChooseRepresentative(g);
    var sample := OfRepeat(g, r)[0];
    OfRepeatMembers(g, r);
    StrOrder();
    var categories := SortSet(Categories(g), StrLeq);
    var evaluators := SortSet(Evaluators(g), StrLeq);
    var failed := exists i :: 0 <= i < |g| && g[i].kind.ProviderFailure?;
    row := RegressingCase(caseId, categories, evaluators, failed, |g|,
      PairRef(r, sample.baselineRunId, sample.candidateRunId));
  }

  lemma {:induction false} GroupNonEmpty(findings: seq<PairFinding>, tag: PairFinding -> Option<string>, key: string)
    ensures Group(findings, tag, key) != [] <==> exists i :: 0 <= i < |findings| && tag(findings[i]) == Some(key)
  {
    if findings != [] {
      var n := |findings| - 1;
      GroupNonEmpty(findings[..n], tag, key);
      if i :| 0 <= i < |findings| && tag(findings[i]) == Some(key) && i != n {
        assert findings[..n][i] == findings[i];
      }
      if i :| 0 <= i < n && tag(findings[..n][i]) == Some(key) {
        assert findings[i] == findings[..n][i];
      }
    }
  }

  method CaseRows(findings: seq<PairFinding>) returns (keys: seq<string>, rows: seq<RegressingCase>)
    ensures CoversKeys(findings, CaseOf, keys) && AreCaseRows(findings, keys, rows)
  {
    var groups;
    keys, groups := GroupBy(findings, CaseOf);
    rows := [];
    for i := 0 to |keys|
      invariant AreCaseRows(findings, keys[..i], rows)
    {
      assert keys[i] in keys;
      GroupNonEmpty(findings, CaseOf, keys[i]);
      var row := CaseRow(findings, keys[i], GroupIn(groups, keys[i]));
      rows := rows + [row];
    }
    assert keys[..|keys|] == keys;
  }

  /** `_regressing_cases`. */
  method RegressingCases(findings: seq<PairFinding>) returns (cases: seq<RegressingCase>)
    ensures IsRegressingCases(findings, cases)
  {
    var keys, rows := CaseRows(findings);
    cases := Sort(rows, CaseLeq);
    CaseOrder();
    SortSorts(rows, CaseLeq);
    SortPermutes(rows, CaseLeq);
  }

  // ----- What the counts say -----

  lemma {:induction false} GroupMembers(findings: seq<PairFinding>, tag: PairFinding -> Option<string>, key: string)
    ensures forall f :: f in Group(findings, tag, key) <==> f in findings && tag(f) == Some(key)
  {
    if findings != [] {
      var n := |findings| - 1;
      GroupMembers(findings[..n], tag, key);
      assert findings == findings[..n] + [findings[n]];
    }
  }

  /** The distinct pairs, and the distinct cases, with a finding under `key`. */
  ghost function PairsTagged(
    findings: seq<PairFinding>, tag: PairFinding -> Option<string>, key: string): set<PairKey>
  {
    set f | f in findings && tag(f) == Some(key) :: f.Key()
  }

  ghost function CasesTagged(
    findings: seq<PairFinding>, tag: PairFinding -> Option<string>, key: string): set<string>
  {
    set f | f in findings && tag(f) == Some(key) :: f.caseId
  }

  lemma GroupCounts(findings: seq<PairFinding>, tag: PairFinding -> Option<string>, key: string)
    ensures PairKeys(Group(findings, tag, key)) == PairsTagged(findings, tag, key)
    ensures CaseIds(Group(findings, tag, key)) == CasesTagged(findings, tag, key)
  {
    var g := Group(findings, tag, key);
    GroupMembers(findings, tag, key);
    forall f | f in g
      ensures f.Key() in PairKeys(g) && f.caseId in CaseIds(g)
    {
      var i :| 0 <= i < |g| && g[i] == f;
    }
    assert forall i :: 0 <= i < |g| ==> g[i] in g;
  }

  /** How many findings evaluator `e` has of this kind. */
  function CountOf(findings: seq<PairFinding>, e: string, kind: FindingKind): nat {
    if findings == [] then 0
    else
      var f := findings[|findings| - 1];
      CountOf(findings[..|findings| - 1], e, kind) + if f.evaluator == Some(e) && f.kind == kind then 1 else 0
  }

  lemma {:induction false} CountsOfGroup(findings: seq<PairFinding>, e: string, kind: FindingKind)
    ensures CountKind(Group(findings, EvaluatorOf, e), kind) == CountOf(findings, e, kind)
  {
    if findings != [] {
      CountsOfGroup(findings[..|findings| - 1], e, kind);
    }
  }

  /** A category row counts the distinct pairs and the distinct cases with a finding of that category. */
  ghost predicate CategorySays(findings: seq<PairFinding>, row: CategoryCount) {
    && row.pairs == |PairsTagged(findings, CategoryOf, row.category)|
    && row.cases == |CasesTagged(findings, CategoryOf, row.category)|
  }

  /** An evaluator row counts those with a finding of that evaluator, and its findings of either kind. */
  ghost predicate EvaluatorSays(findings: seq<PairFinding>, row: EvaluatorCount) {
    && row.pairs == |PairsTagged(findings, EvaluatorOf, row.evaluator)|
    && row.cases == |CasesTagged(findings, EvaluatorOf, row.evaluator)|
    && row.passToFail == CountOf(findings, row.evaluator, PassToFail)
    && row.scoreDrop == CountOf(findings, row.evaluator, ScoreDrop)
  }

  lemma CategoryRowSays(findings: seq<PairFinding>, category: string)
    ensures var row := CategoryRow(findings, category); row.category == category && CategorySays(findings, row)
  {
    GroupCounts(findings, CategoryOf, category);
  }

  lemma EvaluatorRowSays(findings: seq<PairFinding>, e: string)
    ensures var row := EvaluatorRow(findings, e); row.evaluator == e && EvaluatorSays(findings, row)
  {
    GroupCounts(findings, EvaluatorOf, e);
    CountsOfGroup(findings, e, PassToFail);
    CountsOfGroup(findings, e, ScoreDrop);
  }

  /** Every row of a report says so. */
  lemma RowsSay(findings: seq<PairFinding>, categories: seq<CategoryCount>, evaluators: seq<EvaluatorCount>)
    requires IsCategoryCounts(findings, categories) && IsEvaluatorCounts(findings, evaluators)
    ensures forall c :: c in categories ==> CategorySays(findings, c)
    ensures forall c :: c in evaluators ==> EvaluatorSays(findings, c)
  {
    forall c | c in categories
      ensures CategorySays(findings, c)
    {
      CategoryRowSays(findings, c.category);
    }
    var keys :| CoversKeys(findings, EvaluatorOf, keys)
                && multiset(evaluators) == multiset(EvaluatorRows(findings, keys));
    forall c | c in evaluators
      ensures EvaluatorSays(findings, c)
    {
      assert c in multiset(evaluators);
      var i :| 0 <= i < |keys| && EvaluatorRows(findings, keys)[i] == c;
      EvaluatorRowSays(findings, keys[i]);
    }
  }

  // ----- The report -----

  /** `report` is the diagnosis of these findings over this many matched pairs. */
  ghost predicate IsReport(report: RegressionDiagnostics, findings: seq<PairFinding>, matched: nat) {
    && report.findings == findings
    && report.matchedPairs == matched && (report.available <==> matched > 0)
    && report.regressingPairs == |PairKeys(findings)|
    && report.regressingCases == |CaseIds(findings)|
    && IsCategoryCounts(findings, report.categories)
    && IsEvaluatorCounts(findings, report.evaluators)
    && IsRegressingCases(findings, report.cases)
  }

  /** `diagnose_regressions`: raises exactly when one version has two runs for a key. */
  method DiagnoseRegressions(x: Experiment, o: RunOutcome, drop: real := MIN_SCORE_DROP)
      returns (r: Result<RegressionDiagnostics>)
    ensures r.Ok? <==> KeysDistinct(x, o.runs)
    ensures r.Err? ==> r.error == ConfigError
    ensures r.Ok? ==> IsReport(r.value, Findings(x, o, drop), |PairsOf(x, o.runs).keys|)
    ensures r.Ok? ==> forall c :: c in r.value.categories ==> CategorySays(Findings(x, o, drop), c)
    ensures r.Ok? ==> forall c :: c in r.value.evaluators ==> EvaluatorSays(Findings(x, o, drop), c)
  {
    var p := PairRuns(x, o.runs);
    if p.Err? {
      return Err(p.error);
    }
    var findings := FindOnPairs(p.value, ResultsByRun(o.caseResults), drop);
    var categories := CategoryCounts(findings);
    var evaluators := EvaluatorCounts(findings);
    var cases := RegressingCases(findings);
    RowsSay(findings, categories, evaluators);
    r := Ok(RegressionDiagnostics(
      |p.value.keys|, |PairKeys(findings)|, |CaseIds(findings)|, categories, evaluators, cases, findings,
      |p.value.keys| > 0));
  }
}
