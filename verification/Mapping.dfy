/** Results, case results and datasets as rows: what is stored and read back is what there was. */
module Mapping {
  import opened Basics
  import opened Sequences
  import opened Domain
  import opened Gate
  import opened ExecutionService

  // ----- Ordered children: stored with their positions, read back sorted by them -----

  datatype Child<+T> = Child(position: nat, item: T)

  predicate ByPosition<T>(a: Child<T>, b: Child<T>) { a.position <= b.position }

  /** `enumerate`: each item with its position. */
  function Numbered<T>(items: seq<T>): (rows: seq<Child<T>>)
    ensures |rows| == |items|
    ensures forall i :: 0 <= i < |rows| ==> rows[i] == Child(i, items[i])
  {
    seq(|items|, i requires 0 <= i < |items| => Child(i, items[i]))
  }

  /** The items of these rows, whatever order the rows came in, by ascending position. */
  function ReadBack<T>(rows: seq<Child<T>>): (items: seq<T>)
    ensures |items| == |Sort(rows, ByPosition)|
    ensures forall i :: 0 <= i < |items| ==> items[i] == Sort(rows, ByPosition)[i].item
  {
    var sorted := Sort(rows, ByPosition);
    seq(|sorted|, i requires 0 <= i < |sorted| => sorted[i].item)
  }

  /** A database returns rows in no particular order; positions put them back. */
  lemma ReadBackIsIdentity<T(!new)>(items: seq<T>, rows: seq<Child<T>>)
    requires multiset(rows) == multiset(Numbered(items))
    ensures ReadBack(rows) == items
  {
    var numbered := Numbered(items);
    SortPermutes(rows, ByPosition);
    SortSorts(rows, ByPosition);
    SameMultisetSameLength(rows, numbered);
    SameMultisetSameLength(Sort(rows, ByPosition), numbered);
    SortedUnique(Sort(rows, ByPosition), numbered, ByPosition);
  }

  // ----- Evidence: three summaries flattened onto one pair count -----

  datatype EvidenceRow = EvidenceRow(
    metric: string,
    kind: string,
    nPairs: nat,
    baselineMean: real,
    candidateMean: real,
    pairedDeltaMean: real,
    delta: real,
    relativeChange: Option<real>,
    confidenceLevel: real,
    ciLow: Option<real>,
    ciHigh: Option<real>,
    ciExcludesZero: bool,
    insufficientEvidence: bool,
    resamples: int,
    seed: int,
    droppedProviderFailures: int)

  function EvidenceToOrm(e: MetricEvidence): EvidenceRow {
    EvidenceRow(
      e.metric, if e.kind.Binary? then "binary" else "continuous", e.nPairs, e.baseline.mean, e.candidate.mean,
      e.pairedDelta.mean, e.delta, e.relativeChange, e.confidenceLevel, e.ciLow, e.ciHigh, e.ciExcludesZero,
      e.insufficientEvidence, e.resamples, e.seed, e.droppedProviderFailures)
  }

  /** Each summary is rebuilt with the one stored count. */
  function EvidenceFromOrm(row: EvidenceRow): MetricEvidence {
    MetricEvidence(
      row.metric, if row.kind == "binary" then Binary else Continuous, row.nPairs,
      SampleSummary(row.nPairs, row.baselineMean), SampleSummary(row.nPairs, row.candidateMean),
      SampleSummary(row.nPairs, row.pairedDeltaMean), row.delta, row.relativeChange, row.confidenceLevel, row.ciLow,
      row.ciHigh, row.ciExcludesZero, row.insufficientEvidence, row.resamples, row.seed, row.droppedProviderFailures)
  }

  /** Flattening loses nothing exactly when all three summaries count the same pairs, which is what
      the constructor demands. */
  lemma EvidenceRoundTrips(e: MetricEvidence)
    ensures EvidenceFromOrm(EvidenceToOrm(e)) == e <==> e.baseline.n == e.candidate.n == e.pairedDelta.n == e.nPairs
    ensures e.Valid() ==> EvidenceFromOrm(EvidenceToOrm(e)) == e
  {
    assert "binary"[0] == 'b' && "continuous"[0] == 'c';
  }

  function EvidenceRows(items: seq<MetricEvidence>): (rows: seq<EvidenceRow>)
    ensures |rows| == |items| && forall i :: 0 <= i < |rows| ==> rows[i] == EvidenceToOrm(items[i])
  {
    seq(|items|, i requires 0 <= i < |items| => EvidenceToOrm(items[i]))
  }

  function EvidenceItems(rows: seq<EvidenceRow>): (items: seq<MetricEvidence>)
    ensures |items| == |rows| && forall i :: 0 <= i < |items| ==> items[i] == EvidenceFromOrm(rows[i])
  {
    seq(|rows|, i requires 0 <= i < |rows| => EvidenceFromOrm(rows[i]))
  }

  // ----- Evaluation results -----

  /** The rows of one result: its own, and its children in whatever order they are read. */
  datatype ResultRows = ResultRows(
    experimentId: string, metrics: seq<Child<MetricComparison>>, evidence: seq<Child<EvidenceRow>>)

  function ResultToOrm(r: EvaluationResult): ResultRows {
    ResultRows(r.experimentId, Numbered(r.metrics), Numbered(EvidenceRows(r.evidence)))
  }

  function ResultFromOrm(rows: ResultRows): EvaluationResult {
    EvaluationResult(rows.experimentId, ReadBack(rows.metrics), EvidenceItems(ReadBack(rows.evidence)))
  }

  /** The same rows, the children possibly in another order. */
  ghost predicate SameRows(a: ResultRows, b: ResultRows) {
    && a.experimentId == b.experimentId
    && multiset(a.metrics) == multiset(b.metrics) && multiset(a.evidence) == multiset(b.evidence)
  }

  /** A stored result reads back as it was, so the release decision recomputed from the stored
      result is the one computed when it was run. */
  lemma ResultReloads(r: EvaluationResult, rows: ResultRows, policy: Option<ReleasePolicy>)
    requires r.Valid() && SameRows(rows, ResultToOrm(r))
    ensures ResultFromOrm(rows) == r
    ensures EvaluateGate(ResultFromOrm(rows), policy) == EvaluateGate(r, policy)
  {
    ReadBackIsIdentity(r.metrics, rows.metrics);
    ReadBackIsIdentity(EvidenceRows(r.evidence), rows.evidence);
    forall i | 0 <= i < |r.evidence|
      ensures EvidenceFromOrm(EvidenceRows(r.evidence)[i]) == r.evidence[i]
    {
      EvidenceRoundTrips(r.evidence[i]);
    }
    assert EvidenceItems(EvidenceRows(r.evidence)) == r.evidence;
  }

  /** The report recomputed from the stored result of an evaluation is the one its response carried. */
  lemma ReportReloads(
    cat: Catalogue, experimentId: string, req: Request, response: RunResponse, rows: ResultRows,
    policy: Option<ReleasePolicy>)
    requires cat.Valid() && experimentId in cat.experiments && req.setup.Ok?
    requires Judged(cat, experimentId, req, response.evaluation) && response.evaluation.result.Valid()
    requires SameRows(rows, ResultToOrm(response.evaluation.result))
    requires var named := cat.experiments[experimentId].policyId;
             if named.None? then policy == None
             else named.value in cat.policies && policy == Some(cat.policies[named.value])
    ensures EvaluateGate(ResultFromOrm(rows), policy) == Ok(response.evaluation.gate)
  {
    ResultReloads(response.evaluation.result, rows, policy);
  }

  // ----- Case results and datasets -----

  datatype CaseResultRows = CaseResultRows(runId: string, scores: seq<Child<EvaluatorScore>>)

  lemma CaseResultReloads(c: CaseResult, rows: CaseResultRows)
    requires rows.runId == c.runId && multiset(rows.scores) == multiset(Numbered(c.scores))
    ensures Scorecard(rows.runId, ReadBack(rows.scores)) == c
  {
    ReadBackIsIdentity(c.scores, rows.scores);
  }

  // ----- Tool calls in JSON columns -----

  /** Python's truth of a JSON value. */
  predicate TruthyValue(v: Value) {
    match v
    case Null => false
    case Bool(b) => b
    case Number(n) => n != 0.0
    case Text(s) => s != ""
    case List(items) => items != []
    case Mapping(entries) => entries != []
  }

  /** `get`: the value under a key, `Null` when there is none. */
  function Get(entries: seq<Entry>, key: string): Value {
    if entries == [] then Null
    else if entries[0].key == key then entries[0].value
    else Get(entries[1..], key)
  }

  /** What Python's `str` and `dict` make of values that are neither text nor a mapping. */
  datatype Coercions = Coercions(str: Value -> string, dict: Value -> Result<seq<Entry>>)

  function NameOf(v: Value, py: Coercions): string { if v.Text? then v.text else py.str(v) }

  function DictOf(v: Value, py: Coercions): Result<seq<Entry>> { if v.Mapping? then Ok(v.entries) else py.dict(v) }

  function ExpectedCallToJson(c: ExpectedToolCall): Value {
    Mapping([Entry("name", Text(c.name)),
             Entry("arguments", if c.arguments.Some? then Mapping(c.arguments.value) else Null)])
  }

  /** The constructor refuses a blank name. */
  function ExpectedCallFromJson(entries: seq<Entry>, py: Coercions): Result<ExpectedToolCall> {
    var name, arguments := NameOf(Get(entries, "name"), py), Get(entries, "arguments");
    if arguments.Null? then
      if Blank(name) then Err(DomainValidationError) else Ok(ExpectedToolCall(name, None))
    else
      var given :- DictOf(arguments, py);
      if Blank(name) then Err(DomainValidationError) else Ok(ExpectedToolCall(name, Some(given)))
  }

  function ExpectedCallsToJson(calls: seq<ExpectedToolCall>): (items: seq<Value>)
    ensures |items| == |calls| && forall i :: 0 <= i < |items| ==> items[i] == ExpectedCallToJson(calls[i])
  {
    seq(|calls|, i requires 0 <= i < |calls| => ExpectedCallToJson(calls[i]))
  }

  /** The entries of the list that have a name, in order; entries that are no mapping or have none are
      passed over. */
  function CallsFromItems(items: seq<Value>, py: Coercions): (r: Result<seq<ExpectedToolCall>>)
    ensures r.Ok? ==> |r.value| <= |items| && forall c :: c in r.value ==> !Blank(c.name)
  {
    if items == [] then Ok([])
    else
      var rest :- CallsFromItems(items[..|items| - 1], py);
      var item := items[|items| - 1];
      if !item.Mapping? || !TruthyValue(Get(item.entries, "name")) then Ok(rest)
      else
        var call :- ExpectedCallFromJson(item.entries, py);
        Ok(rest + [call])
  }

  function ExpectedCallsFromJson(column: Value, py: Coercions): Result<seq<ExpectedToolCall>> {
    if column.List? then CallsFromItems(column.items, py) else Ok([])
  }

  lemma OneCallReloads(c: ExpectedToolCall, py: Coercions)
    ensures var item := ExpectedCallToJson(c);
            && item.Mapping? && Get(item.entries, "name") == Text(c.name)
            && ExpectedCallFromJson(item.entries, py) == if Blank(c.name) then Err(DomainValidationError) else Ok(c)
  {
    assert "name"[0] == 'n' && "arguments"[0] == 'a';
    var entries := ExpectedCallToJson(c).entries;
    assert Get(entries[1..], "arguments") == entries[1].value;
    assert Get(entries, "arguments") == entries[1].value;
  }

  lemma {:induction false} ItemsReload(calls: seq<ExpectedToolCall>, py: Coercions)
    ensures CallsFromItems(ExpectedCallsToJson(calls), py) == Ok(calls)
       <==> forall i :: 0 <= i < |calls| ==> !Blank(calls[i].name)
  {
    if calls != [] {
      var k := |calls| - 1;
      ItemsReload(calls[..k], py);
      OneCallReloads(calls[k], py);
      assert ExpectedCallsToJson(calls)[..k] == ExpectedCallsToJson(calls[..k]);
      assert calls == calls[..k] + [calls[k]];
      if CallsFromItems(ExpectedCallsToJson(calls), py) == Ok(calls) {
        assert forall i :: 0 <= i < |calls| ==> calls[i] in calls;
      }
    }
  }

  /** Expected tool calls come back from their JSON column exactly when none has a blank name, which their
      constructor demands: an empty name would be passed over, a blank one refused. */
  lemma ExpectedCallsReload(calls: seq<ExpectedToolCall>, py: Coercions)
    ensures ExpectedCallsFromJson(List(ExpectedCallsToJson(calls)), py) == Ok(calls)
       <==> forall i :: 0 <= i < |calls| ==> !Blank(calls[i].name)
  {
    ItemsReload(calls, py);
  }

  // ----- Datasets -----

  datatype CaseRow = CaseRow(id: string, input: string, expectedToolCalls: Value)

  function CaseToOrm(c: DatasetCase): CaseRow {
    CaseRow(c.id, c.input, List(ExpectedCallsToJson(c.expectedToolCalls)))
  }

  function CaseFromOrm(row: CaseRow, py: Coercions): Result<DatasetCase> {
    var calls :- ExpectedCallsFromJson(row.expectedToolCalls, py);
    Ok(DatasetCase(row.id, row.input, calls))
  }

  function CaseRows(cases: seq<DatasetCase>): (rows: seq<CaseRow>)
    ensures |rows| == |cases| && forall i :: 0 <= i < |rows| ==> rows[i] == CaseToOrm(cases[i])
  {
    seq(|cases|, i requires 0 <= i < |cases| => CaseToOrm(cases[i]))
  }

  function CasesFromOrm(rows: seq<CaseRow>, py: Coercions): Result<seq<DatasetCase>> {
    if rows == [] then Ok([])
    else
      var rest :- CasesFromOrm(rows[..|rows| - 1], py);
      var last :- CaseFromOrm(rows[|rows| - 1], py);
      Ok(rest + [last])
  }

  /** The rows of one dataset: its own, and its cases in whatever order they are read. */
  datatype DatasetRows = DatasetRows(id: string, cases: seq<Child<CaseRow>>)

  function DatasetFromOrm(rows: DatasetRows, py: Coercions): Result<Dataset> {
    var cases :- CasesFromOrm(ReadBack(rows.cases), py);
    Ok(Dataset(rows.id, cases))
  }

  /** No expected tool call of the case has a blank name. */
  ghost predicate CallsNamed(c: DatasetCase) {
    forall i :: 0 <= i < |c.expectedToolCalls| ==> !Blank(c.expectedToolCalls[i].name)
  }

  lemma CaseReloads(c: DatasetCase, py: Coercions)
    ensures CaseFromOrm(CaseToOrm(c), py) == Ok(c) <==> CallsNamed(c)
  {
    ExpectedCallsReload(c.expectedToolCalls, py);
  }

  lemma CasesReadSnoc(cases: seq<DatasetCase>, c: DatasetCase, py: Coercions)
    ensures CasesFromOrm(CaseRows(cases + [c]), py) ==
            match CasesFromOrm(CaseRows(cases), py)
            case Err(e) => Err(e)
            case Ok(rest) =>
              match CaseFromOrm(CaseToOrm(c), py)
              case Err(e) => Err(e)
              case Ok(last) => Ok(rest + [last])
  {
    var rows := CaseRows(cases + [c]);
    assert rows[..|cases|] == CaseRows(cases);
    assert rows[|cases|] == CaseToOrm(c);
  }

  lemma {:induction false} CasesReload(cases: seq<DatasetCase>, py: Coercions)
    ensures CasesFromOrm(CaseRows(cases), py) == Ok(cases) <==> forall i :: 0 <= i < |cases| ==> CallsNamed(cases[i])
    ensures CasesFromOrm(CaseRows(cases), py).Ok? ==> |CasesFromOrm(CaseRows(cases), py).value| == |cases|
  {
    if cases != [] {
      var k := |cases| - 1;
      var before, c := cases[..k], cases[k];
      CasesReload(before, py);
      CaseReloads(c, py);
      assert cases == before + [c];
      CasesReadSnoc(before, c, py);
      var rest, last := CasesFromOrm(CaseRows(before), py), CaseFromOrm(CaseToOrm(c), py);
      if rest.Ok? && last.Ok? && rest.value + [last.value] == before + [c] {
        assert rest.value == (before + [c])[..k];
        assert last.value == (before + [c])[k];
      }
    }
  }

  /** A reloaded dataset has its cases in authored order, so a rerun visits the same grid in the same
      order; and every case is what it was exactly when no expected tool call has a blank name. */
  lemma DatasetReloads(d: Dataset, rows: DatasetRows, py: Coercions)
    requires rows.id == d.id && multiset(rows.cases) == multiset(Numbered(CaseRows(d.cases)))
    ensures DatasetFromOrm(rows, py) == Ok(d) <==> forall i :: 0 <= i < |d.cases| ==> CallsNamed(d.cases[i])
  {
    ReadBackIsIdentity(CaseRows(d.cases), rows.cases);
    CasesReload(d.cases, py);
  }
}
