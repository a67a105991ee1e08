/** A full grid of runs: what the runner produces, and why its two readings agree. */
module Grid {
  import opened Basics
  import opened Sequences
  import opened Ordering
  import opened Domain
  import opened Observations
  import opened Runner
  import opened Aggregate
  import opened Pairing

  function NamesOf(evaluators: seq<Evaluator>): (names: seq<string>)
    ensures |names| == |evaluators|
    ensures forall i :: 0 <= i < |names| ==> names[i] == evaluators[i].name
  {
    seq(|evaluators|, i requires 0 <= i < |evaluators| => evaluators[i].name)
  }

  /** Every score an evaluator returns carries that evaluator's own name. */
  ghost predicate OwnLabels(evaluators: seq<Evaluator>) {
    forall i, run, c :: 0 <= i < |evaluators| && evaluators[i].evaluate(run, c).Ok? ==>
      evaluators[i].evaluate(run, c).value.evaluator == evaluators[i].name
  }

  /** Each version has one run per key, both in the same key order, baseline block first. */
  ghost predicate FullGrid(x: Experiment, runs: seq<Run>, n: nat) {
    && n >= 1 && |runs| == 2 * n
    && (forall i :: 0 <= i < n ==> runs[i].versionId == x.baselineVersionId)
    && (forall i :: n <= i < 2 * n ==> runs[i].versionId == x.candidateVersionId)
    && (forall i :: 0 <= i < n ==> runs[i].Key() == runs[n + i].Key())
    && NoDup(KeysOf(runs[..n]))
  }

  ghost predicate GridOutcome(x: Experiment, o: RunOutcome, names: seq<string>, n: nat) {
    x.Valid() && ValidOutcome(x, o, names) && FullGrid(x, o.runs, n)
  }

  // ----- The runner produces a full grid -----

  lemma DoneFacts(
    x: Experiment, w: World, evaluators: seq<Evaluator>, cell: Cell, id: string, run: Run, scored: CaseResult)
    requires CellDone(x, w, evaluators, cell, id, run, scored) && OwnLabels(evaluators)
    requires cell.version.id in {x.baselineVersionId, x.candidateVersionId}
    ensures run.id == id == scored.runId
    ensures run.versionId == cell.version.id && run.Key() == cell.Key()
    ensures ValidRun(x, run, scored, NamesOf(evaluators))
  {
    if run.error.None? {
      forall n | n in NamesOf(evaluators)
        ensures exists i :: 0 <= i < |scored.scores| && scored.scores[i].evaluator == n
      {
        var k :| 0 <= k < |evaluators| && NamesOf(evaluators)[k] == n;
        assert evaluators[k].evaluate(run, cell.case_) == Ok(scored.scores[k]);
      }
    }
  }

  lemma GridCellKeys(baseline: SystemVersion, candidate: SystemVersion, cases: seq<DatasetCase>, repeats: nat)
    requires forall i, j :: 0 <= i < j < |cases| ==> cases[i].id != cases[j].id
    ensures var cells, n := GridCells(baseline, candidate, cases, repeats), |cases| * repeats;
            && |cells| == 2 * n
            && (forall i :: 0 <= i < n ==> cells[i].version == baseline)
            && (forall i :: n <= i < 2 * n ==> cells[i].version == candidate)
            && (forall i :: 0 <= i < n ==> cells[i].Key() == cells[n + i].Key())
            && (forall i, j :: 0 <= i < j < n ==> cells[i].Key() != cells[j].Key())
  {
    VersionCellsCover(baseline, cases, repeats);
    VersionCellsCover(candidate, cases, repeats);
    SameKeyOrder(baseline, candidate, cases, repeats);
  }

  lemma {:induction false} SameKeyOrder(v: SystemVersion, v': SystemVersion, cases: seq<DatasetCase>, repeats: nat)
    ensures var a, b := VersionCells(v, cases, repeats), VersionCells(v', cases, repeats);
            |a| == |b| && forall i :: 0 <= i < |a| ==> a[i].Key() == b[i].Key()
  {
    if cases != [] {
      SameKeyOrder(v, v', cases[..|cases| - 1], repeats);
    }
  }

  lemma ProductPositive(a: nat, b: nat)
    requires a >= 1 && b >= 1
    ensures a * b >= 1
  {
  }

  /** Whatever the providers and evaluators do, a finished run is a full grid of
      cases x repeats pairs with aligned, readable case results. */
  lemma RunnerProducesGrid(
    x: Experiment, dataset: Dataset, baseline: SystemVersion, candidate: SystemVersion, w: World,
    evaluators: seq<Evaluator>,
    o: RunOutcome)
    requires x.Valid() && dataset.Valid() && w.FreshIds() && OwnLabels(evaluators)
    requires Preflight(x, dataset, baseline, candidate, w, evaluators)
    requires Visited(x, w, evaluators, GridCells(baseline, candidate, dataset.cases, x.repeats), o.runs, o.caseResults)
    ensures GridOutcome(x, o, NamesOf(evaluators), |dataset.cases| * x.repeats)
  {
    var cells, n := GridCells(baseline, candidate, dataset.cases, x.repeats), |dataset.cases| * x.repeats;
    GridCellKeys(baseline, candidate, dataset.cases, x.repeats);
    ProductPositive(|dataset.cases|, x.repeats);
    forall i | 0 <= i < 2 * n
      ensures Mirrors(x, w, NamesOf(evaluators), cells[i], i, o.runs[i], o.caseResults[i])
    {
      DoneFacts(x, w, evaluators, cells[i], w.newId(i), o.runs[i], o.caseResults[i]);
    }
    MirrorIsValid(x, w, NamesOf(evaluators), cells, o);
    MirrorIsFull(x, w, NamesOf(evaluators), cells, o, n);
  }

  /** Run `i` and its case result come from this cell. */
  ghost predicate Mirrors(
    x: Experiment, w: World, names: seq<string>, cell: Cell, i: nat, run: Run, scored: CaseResult)
  {
    && run.id == w.newId(i) == scored.runId
    && run.versionId == cell.version.id && run.Key() == cell.Key()
    && ValidRun(x, run, scored, names)
  }

  ghost predicate AllMirror(x: Experiment, w: World, names: seq<string>, cells: seq<Cell>, o: RunOutcome) {
    && |o.runs| == |o.caseResults| == |cells|
    && forall i :: 0 <= i < |cells| ==> Mirrors(x, w, names, cells[i], i, o.runs[i], o.caseResults[i])
  }

  lemma MirrorIsValid(x: Experiment, w: World, names: seq<string>, cells: seq<Cell>, o: RunOutcome)
    requires w.FreshIds() && NoDup(names) && AllMirror(x, w, names, cells, o)
    ensures ValidOutcome(x, o, names)
  {
    forall i, j | 0 <= i < j < |o.runs|
      ensures o.runs[i].id != o.runs[j].id
    {
      assert Mirrors(x, w, names, cells[i], i, o.runs[i], o.caseResults[i]);
      assert Mirrors(x, w, names, cells[j], j, o.runs[j], o.caseResults[j]);
    }
    forall i | 0 <= i < |o.runs|
      ensures o.caseResults[i].runId == o.runs[i].id && ValidRun(x, o.runs[i], o.caseResults[i], names)
    {
      assert Mirrors(x, w, names, cells[i], i, o.runs[i], o.caseResults[i]);
    }
  }

  lemma MirrorIsFull(x: Experiment, w: World, names: seq<string>, cells: seq<Cell>, o: RunOutcome, n: nat)
    requires AllMirror(x, w, names, cells, o) && n >= 1 && |cells| == 2 * n
    requires forall i :: 0 <= i < n ==> cells[i].version.id == x.baselineVersionId
    requires forall i :: n <= i < 2 * n ==> cells[i].version.id == x.candidateVersionId
    requires forall i :: 0 <= i < n ==> cells[i].Key() == cells[n + i].Key()
    requires forall i, j :: 0 <= i < j < n ==> cells[i].Key() != cells[j].Key()
    ensures FullGrid(x, o.runs, n)
  {
    forall i | 0 <= i < 2 * n
      ensures o.runs[i].versionId == cells[i].version.id && o.runs[i].Key() == cells[i].Key()
    {
      assert Mirrors(x, w, names, cells[i], i, o.runs[i], o.caseResults[i]);
    }
    var first := KeysOf(o.runs[..n]);
    forall i, j | 0 <= i < j < n
      ensures first[i] != first[j]
    {
      assert first[i] == cells[i].Key() && first[j] == cells[j].Key();
    }
  }

  // ----- What the grid says of the provider -----

  /** How many of these calls were answered. */
  function AnsweredCount(w: World, cells: seq<Cell>): nat {
    if cells == [] then 0
    else
      var n := |cells| - 1;
      var answered := w.complete(cells[n].version.id, cells[n].case_.id, cells[n].repeatIndex).Answer?;
      AnsweredCount(w, cells[..n]) + if answered then 1 else 0
  }

  ghost predicate RunsAre(x: Experiment, w: World, cells: seq<Cell>, runs: seq<Run>) {
    |runs| == |cells| && forall i :: 0 <= i < |runs| ==> RunIs(x, w, cells[i], runs[i].id, runs[i])
  }

  lemma {:induction false} SuccessesAreAnswers(x: Experiment, w: World, cells: seq<Cell>, runs: seq<Run>)
    requires RunsAre(x, w, cells, runs)
    ensures SuccessCount(runs) == AnsweredCount(w, cells)
  {
    if runs != [] {
      SuccessesAreAnswers(x, w, cells[..|cells| - 1], runs[..|runs| - 1]);
    }
  }

  lemma AnsweredRate(x: Experiment, w: World, cells: seq<Cell>, runs: seq<Run>, results: map<string, CaseResult>)
    requires RunsAre(x, w, cells, runs) && cells != []
    ensures RateValue(SuccessRate, runs, results) == AnsweredCount(w, cells) as real / |cells| as real
  {
    SuccessesAreAnswers(x, w, cells, runs);
    SuccessRateIsMean(runs, results);
  }

  lemma AnsweredRates(x: Experiment, w: World, cells: seq<Cell>, o: RunOutcome, n: nat)
    requires x.Valid() && FullGrid(x, o.runs, n) && RunsAre(x, w, cells, o.runs)
    ensures var mc := RateComparison(x, o, SuccessRate);
            && mc.baselineValue == AnsweredCount(w, cells[..n]) as real / n as real
            && mc.candidateValue == AnsweredCount(w, cells[n..]) as real / n as real
  {
    GridSplits(x, o.runs, n);
    AnsweredRate(x, w, cells[..n], o.runs[..n], ResultsByRun(o.caseResults));
    AnsweredRate(x, w, cells[n..], o.runs[n..], ResultsByRun(o.caseResults));
  }

  lemma VisitedRunsAre(x: Experiment, w: World, evaluators: seq<Evaluator>, cells: seq<Cell>, o: RunOutcome)
    requires Visited(x, w, evaluators, cells, o.runs, o.caseResults)
    ensures RunsAre(x, w, cells, o.runs)
  {
    forall i | 0 <= i < |cells|
      ensures RunIs(x, w, cells[i], o.runs[i].id, o.runs[i])
    {
      assert CellDone(x, w, evaluators, cells[i], w.newId(i), o.runs[i], o.caseResults[i]);
    }
  }

  /** In a finished run a version's success rate is the share of its cells whose call was answered. */
  lemma SuccessRateIsAnsweredShare(
    x: Experiment, dataset: Dataset, baseline: SystemVersion, candidate: SystemVersion, w: World,
    evaluators: seq<Evaluator>, o: RunOutcome)
    requires x.Valid() && dataset.Valid() && w.FreshIds() && OwnLabels(evaluators)
    requires Preflight(x, dataset, baseline, candidate, w, evaluators)
    requires Visited(x, w, evaluators, GridCells(baseline, candidate, dataset.cases, x.repeats), o.runs, o.caseResults)
    ensures var n, mc := |dataset.cases| * x.repeats, RateComparison(x, o, SuccessRate);
            && n >= 1
            && mc.baselineValue
               == AnsweredCount(w, VersionCells(baseline, dataset.cases, x.repeats)) as real / n as real
            && mc.candidateValue
               == AnsweredCount(w, VersionCells(candidate, dataset.cases, x.repeats)) as real / n as real
  {
    var cells := GridCells(baseline, candidate, dataset.cases, x.repeats);
    RunnerProducesGrid(x, dataset, baseline, candidate, w, evaluators, o);
    VisitedRunsAre(x, w, evaluators, cells, o);
    HalvesOfCells(baseline, candidate, dataset, x.repeats);
    AnsweredRates(x, w, cells, o, |dataset.cases| * x.repeats);
  }

  lemma HalvesOfCells(baseline: SystemVersion, candidate: SystemVersion, dataset: Dataset, repeats: nat)
    requires dataset.Valid()
    ensures var cells, n := GridCells(baseline, candidate, dataset.cases, repeats), |dataset.cases| * repeats;
            && n <= |cells|
            && cells[..n] == VersionCells(baseline, dataset.cases, repeats)
            && cells[n..] == VersionCells(candidate, dataset.cases, repeats)
  {
    VersionCellsCover(baseline, dataset.cases, repeats);
  }

  // ----- Reading a full grid -----

  lemma GridHalves(x: Experiment, runs: seq<Run>, n: nat)
    requires x.Valid() && FullGrid(x, runs, n)
    ensures RunsOf(runs, x.baselineVersionId) == runs[..n]
    ensures RunsOf(runs, x.candidateVersionId) == runs[n..]
  {
    var b, c := runs[..n], runs[n..];
    assert runs == b + c;
    RunsOfConcat(b, c, x.baselineVersionId);
    RunsOfConcat(b, c, x.candidateVersionId);
    RunsOfUniform(b, x.baselineVersionId, true);
    RunsOfUniform(c, x.baselineVersionId, false);
    RunsOfUniform(b, x.candidateVersionId, false);
    RunsOfUniform(c, x.candidateVersionId, true);
  }

  lemma GridSplits(x: Experiment, runs: seq<Run>, n: nat)
    requires x.Valid() && FullGrid(x, runs, n)
    ensures RunsOf(runs, x.baselineVersionId) == runs[..n]
    ensures RunsOf(runs, x.candidateVersionId) == runs[n..]
    ensures KeysOf(runs[..n]) == KeysOf(runs[n..])
    ensures KeysDistinct(x, runs)
  {
    GridHalves(x, runs, n);
    var b, c := KeysOf(runs[..n]), KeysOf(runs[n..]);
    forall i | 0 <= i < n
      ensures b[i] == c[i]
    {
      assert b[i] == runs[i].Key() && c[i] == runs[n + i].Key();
    }
    assert b == c;
  }

  /** `mine` are the runs at `keys`, each found by its key among `runs`. */
  ghost predicate Selected(runs: seq<Run>, keys: seq<PairKey>, mine: seq<Run>) {
    && |mine| == |keys|
    && forall i :: 0 <= i < |keys| ==> keys[i] in ByKey(runs) && mine[i] == ByKey(runs)[keys[i]]
  }

  /** Pairing a full grid is total: every run has its counterpart. */
  lemma GridPairs(x: Experiment, runs: seq<Run>, n: nat)
    requires x.Valid() && FullGrid(x, runs, n)
    ensures var p := PairsOf(x, runs);
            && |p.keys| == n && p.unmatched == 0
            && NoDup(p.keys) && (forall k :: k in p.keys <==> k in KeysOf(runs[..n]))
            && Selected(runs[..n], p.keys, p.baseline) && Selected(runs[n..], p.keys, p.candidate)
  {
    GridSplits(x, runs, n);
    PairsOfSameKeys(x, runs, runs[..n], runs[n..]);
  }

  lemma PairsOfSameKeys(x: Experiment, runs: seq<Run>, b: seq<Run>, c: seq<Run>)
    requires b == RunsOf(runs, x.baselineVersionId) && c == RunsOf(runs, x.candidateVersionId)
    requires NoDup(KeysOf(b)) && KeysOf(b) == KeysOf(c)
    ensures var p := PairsOf(x, runs);
            && |p.keys| == |b| && p.unmatched == 0
            && NoDup(p.keys) && (forall k :: k in p.keys <==> k in KeysOf(b))
            && Selected(b, p.keys, p.baseline) && Selected(c, p.keys, p.candidate)
  {
    assert |ByKey(b)| == |b| by { ByKeyFacts(b); }
    ByKeyDomain(b);
    ByKeyDomain(c);
    assert ByKey(b).Keys == ByKey(c).Keys;
    PairUpSameKeys(ByKey(b), ByKey(c));
  }

  lemma ByKeyDomain(runs: seq<Run>)
    ensures forall k :: k in ByKey(runs) <==> k in KeysOf(runs)
  {
    ByKeyMembers(runs);
  }

  /** Selecting the runs of one version by sorted key rearranges them and nothing else. */
  lemma ObservationsRearranged(
    runs: seq<Run>, keys: seq<PairKey>, mine: seq<Run>, rate: Rate, results: map<string, CaseResult>)
    requires NoDup(KeysOf(runs)) && NoDup(keys)
    requires forall k :: k in keys <==> k in KeysOf(runs)
    requires Selected(runs, keys, mine)
    ensures Mean(ObsSeq(rate, mine, results)) == Mean(ObsSeq(rate, runs, results))
  {
    ByKeyFacts(runs);
    forall i, j | 0 <= i < |keys| && 0 <= j < |runs| && keys[i] == KeysOf(runs)[j]
      ensures ObsSeq(rate, mine, results)[i] == ObsSeq(rate, runs, results)[j]
    {
      assert mine[i] == runs[j];
    }
    SumByKeys(keys, ObsSeq(rate, mine, results), KeysOf(runs), ObsSeq(rate, runs, results));
  }

  /** The paired means are the aggregate's values, although one sums in sorted key order and the
      other in execution order. */
  lemma PairedMeansMatchAggregate(x: Experiment, o: RunOutcome, names: seq<string>, n: nat, rate: Rate)
    requires GridOutcome(x, o, names, n)
    ensures var p, results := PairsOf(x, o.runs), ResultsByRun(o.caseResults);
            var mc := RateComparison(x, o, rate);
            && Mean(ObsSeq(rate, p.baseline, results)) == mc.baselineValue
            && Mean(ObsSeq(rate, p.candidate, results)) == mc.candidateValue
  {
    GridSplits(x, o.runs, n);
    GridPairs(x, o.runs, n);
    var p, results := PairsOf(x, o.runs), ResultsByRun(o.caseResults);
    ObservationsRearranged(o.runs[..n], p.keys, p.baseline, rate, results);
    ObservationsRearranged(o.runs[n..], p.keys, p.candidate, rate, results);
  }

  /** Nothing is unreadable in a grid outcome. */
  lemma GridReadable(x: Experiment, o: RunOutcome, names: seq<string>, n: nat)
    requires GridOutcome(x, o, names, n)
    ensures RatesReadable(names, PairsOf(x, o.runs), ResultsByRun(o.caseResults))
  {
    GridSplits(x, o.runs, n);
    var p, results := PairsOf(x, o.runs), ResultsByRun(o.caseResults);
    RatesMembers(names);
    forall r | 0 <= r < |Rates(names)|
      ensures PairsReadable(Rates(names)[r], p, results)
    {
      var rate := Rates(names)[r];
      assert rate in Rates(names);
      ValidOutcomeReadable(x, o, names, rate, x.baselineVersionId);
      ValidOutcomeReadable(x, o, names, rate, x.candidateVersionId);
      SelectionReadable(x, o.runs, rate, results);
    }
  }

  lemma SelectionReadable(x: Experiment, runs: seq<Run>, rate: Rate, results: map<string, CaseResult>)
    requires AllReadable(rate, RunsOf(runs, x.baselineVersionId), results)
    requires AllReadable(rate, RunsOf(runs, x.candidateVersionId), results)
    ensures PairsReadable(rate, PairsOf(x, runs), results)
  {
    var p := PairsOf(x, runs);
    ByKeyMembers(RunsOf(runs, x.baselineVersionId));
    ByKeyMembers(RunsOf(runs, x.candidateVersionId));
    forall i | 0 <= i < |p.keys|
      ensures Readable(rate, p.baseline[i], results) && Readable(rate, p.candidate[i], results)
    {
      assert p.keys[i] in p.keys;
      assert p.baseline[i] in RunsOf(runs, x.baselineVersionId);
      assert p.candidate[i] in RunsOf(runs, x.candidateVersionId);
    }
  }
}
