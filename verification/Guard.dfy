/** What the statistical guard must answer, whatever the random stream, for two paired series. */
module Guard {
  import opened Basics
  import opened Sequences
  import opened Domain
  import opened Bootstrap
  import opened Gate

  /** The evidence item of two aligned series under given settings. */
  ghost predicate IsEvidence(e: MetricEvidence, b: seq<real>, c: seq<real>) {
    exists metric, kind, confidence, resamples, seed, dropped, rng ::
      EvidenceOf(metric, kind, b, c, confidence, resamples, seed, dropped, rng) == Ok(e)
  }

  /** Facts every evidence item carries, for every stream. */
  lemma EvidenceFacts(e: MetricEvidence, b: seq<real>, c: seq<real>)
    requires IsEvidence(e, b, c)
    ensures |b| == |c| == e.nPairs
    ensures e.baseline.mean == Mean(b) && e.candidate.mean == Mean(c) && e.delta == Mean(c) - Mean(b)
    ensures |b| == |c| && e.pairedDelta.mean == Mean(Diffs(b, c)) == e.delta
    ensures e.ciLow.Some? == e.ciHigh.Some? == (e.nPairs >= MIN_PAIRS_FOR_CI)
    ensures e.ciLow.Some? ==> e.ciLow.value <= e.ciHigh.value
  {
    var metric, kind, confidence, resamples, seed, dropped, rng :|
      EvidenceOf(metric, kind, b, c, confidence, resamples, seed, dropped, rng) == Ok(e);
    MeanDiffs(b, c);
    if |b| >= MIN_PAIRS_FOR_CI {
      IntervalWellFormed(b, c, confidence, resamples, seed, rng);
    }
  }

  /** The interval lies between any bounds on the paired differences. */
  lemma IntervalBounds(e: MetricEvidence, b: seq<real>, c: seq<real>, lo: real, hi: real)
    requires IsEvidence(e, b, c) && |b| == |c|
    requires forall i :: 0 <= i < |b| ==> lo <= c[i] - b[i] <= hi
    ensures e.ciLow.Some? && e.ciHigh.Some? ==> lo <= e.ciLow.value && e.ciHigh.value <= hi
  {
    var metric, kind, confidence, resamples, seed, dropped, rng :|
      EvidenceOf(metric, kind, b, c, confidence, resamples, seed, dropped, rng) == Ok(e);
    IntervalWithinRange(b, c, confidence, resamples, seed, rng, lo, hi);
  }

  lemma SomeBounds(b: seq<real>, c: seq<real>) returns (lo: real, hi: real)
    requires |b| == |c|
    ensures forall i :: 0 <= i < |b| ==> lo <= c[i] - b[i] <= hi
    ensures b != [] ==> exists i :: 0 <= i < |b| && hi == c[i] - b[i]
    ensures b != [] ==> exists i :: 0 <= i < |b| && lo == c[i] - b[i]
  {
    if b == [] {
      lo, hi := 0.0, 0.0;
    } else {
      var d := Diffs(b, c);
      lo, hi := Extremes(d);
      forall i | 0 <= i < |b|
        ensures lo <= c[i] - b[i] <= hi
      {
        assert d[i] == c[i] - b[i];
      }
      var i :| 0 <= i < |d| && d[i] == hi;
      var j :| 0 <= j < |d| && d[j] == lo;
      assert hi == c[i] - b[i] && lo == c[j] - b[j];
    }
  }

  /** No pair of the candidate is on the adverse side of its baseline. */
  ghost predicate NoPairWorse(direction: Direction, b: seq<real>, c: seq<real>)
    requires |b| == |c|
  {
    forall i :: 0 <= i < |b| ==> if direction.HigherIsBetter? then c[i] >= b[i] else c[i] <= b[i]
  }

  lemma ProductNonNegative(t: real, ref: real)
    requires t >= 0.0 && ref >= 0.0
    ensures Times(t, ref) >= 0.0
  {
  }

  /** If no pair is worse, the interval never confirms a regression. */
  lemma NoPairWorseNeverConfirms(e: MetricEvidence, b: seq<real>, c: seq<real>, direction: Direction, t: real)
    requires IsEvidence(e, b, c) && |b| == |c| && t >= 0.0
    requires forall i :: 0 <= i < |b| ==> b[i] >= 0.0
    requires NoPairWorse(direction, b, c)
    ensures !CiConfirmsRegression(e, direction, Some(t))
  {
    EvidenceFacts(e, b, c);
    SumNonNegative(b);
    var lo, hi := SomeBounds(b, c);
    if direction.HigherIsBetter? {
      IntervalBounds(e, b, c, 0.0, if hi < 0.0 then 0.0 else hi);
    } else {
      IntervalBounds(e, b, c, if lo > 0.0 then 0.0 else lo, 0.0);
    }
    NotBeyondTolerance(e, direction, t);
  }

  lemma NotBeyondTolerance(e: MetricEvidence, direction: Direction, t: real)
    requires t >= 0.0 && e.baseline.mean >= 0.0
    requires e.ciLow.Some? && e.ciHigh.Some? ==>
               if direction.HigherIsBetter? then e.ciHigh.value >= 0.0 else e.ciLow.value <= 0.0
    ensures !CiConfirmsRegression(e, direction, Some(t))
  {
    ProductNonNegative(t, e.baseline.mean);
  }

  /** Every pair is worse by more than `tolerated`. */
  ghost predicate AllWorseBy(direction: Direction, b: seq<real>, c: seq<real>, tolerated: real)
    requires |b| == |c|
  {
    forall i :: 0 <= i < |b| ==> if direction.HigherIsBetter? then c[i] < b[i] - tolerated else c[i] > b[i] + tolerated
  }

  /** The evidence speaks, on enough pairs, for a change for the worse of more than `tolerated`. */
  predicate BeyondBy(direction: Direction, e: MetricEvidence, tolerated: real) {
    && e.nPairs >= MIN_PAIRS_TO_BLOCK && e.ciLow.Some? && e.ciHigh.Some?
    && match direction
       case HigherIsBetter =>
         e.ciHigh.value < -tolerated && e.baseline.mean > 0.0 && e.candidate.mean < e.baseline.mean - tolerated
       case LowerIsBetter => e.ciLow.value > tolerated && e.candidate.mean > e.baseline.mean + tolerated
  }

  lemma BeyondBlocks(direction: Direction, e: MetricEvidence, t: real)
    requires Times(t, e.baseline.mean) >= 0.0 && BeyondBy(direction, e, Times(t, e.baseline.mean))
    ensures Breached(direction, e.baseline.mean, e.candidate.mean, t)
    ensures e.nPairs >= MIN_PAIRS_TO_BLOCK && CiConfirmsRegression(e, direction, Some(t))
  {
  }

  lemma EveryPairBeyond(direction: Direction, e: MetricEvidence, b: seq<real>, c: seq<real>, tolerated: real)
    requires IsEvidence(e, b, c) && |b| == |c| >= MIN_PAIRS_TO_BLOCK && tolerated >= 0.0
    requires forall i :: 0 <= i < |b| ==> b[i] >= 0.0 && c[i] >= 0.0
    requires AllWorseBy(direction, b, c, tolerated)
    ensures BeyondBy(direction, e, tolerated)
  {
    EvidenceFacts(e, b, c);
    SumNonNegative(c);
    var lo, hi := SomeBounds(b, c);
    IntervalBounds(e, b, c, lo, hi);
    var most :| 0 <= most < |b| && hi == c[most] - b[most];
    var least :| 0 <= least < |b| && lo == c[least] - b[least];
    MeanWithin(b, c, lo, hi);
  }

  /** If at least eight pairs are all worse by more than the tolerated amount, the point test is
      breached and the interval confirms it. */
  lemma EveryPairWorseBlocks(direction: Direction, e: MetricEvidence, b: seq<real>, c: seq<real>, t: real)
    requires IsEvidence(e, b, c) && |b| == |c| >= MIN_PAIRS_TO_BLOCK
    requires forall i :: 0 <= i < |b| ==> b[i] >= 0.0 && c[i] >= 0.0
    requires Times(t, e.baseline.mean) >= 0.0
    requires AllWorseBy(direction, b, c, Times(t, e.baseline.mean))
    ensures Breached(direction, e.baseline.mean, e.candidate.mean, t)
    ensures e.nPairs >= MIN_PAIRS_TO_BLOCK && CiConfirmsRegression(e, direction, Some(t))
  {
    EveryPairBeyond(direction, e, b, c, Times(t, e.baseline.mean));
    BeyondBlocks(direction, e, t);
  }

  lemma MeanWithin(b: seq<real>, c: seq<real>, lo: real, hi: real)
    requires |b| == |c| && b != []
    requires forall i :: 0 <= i < |b| ==> lo <= c[i] - b[i] <= hi
    ensures lo <= Mean(c) - Mean(b) <= hi
  {
    MeanBounds(Diffs(b, c), lo, hi);
    MeanDiffs(b, c);
  }

  /** When all paired differences agree and there are at least eight, the guard refines to the
      plain point comparison: never low evidence, never inconclusive. */
  lemma ConstantDifferenceRefinesToPointTest(
    direction: Direction, e: MetricEvidence, b: seq<real>, c: seq<real>, t: real, d: real)
    requires IsEvidence(e, b, c) && |b| == |c| >= MIN_PAIRS_TO_BLOCK && t >= 0.0
    requires forall i :: 0 <= i < |b| ==> b[i] >= 0.0 && c[i] >= 0.0
    requires forall i :: 0 <= i < |b| ==> c[i] - b[i] == d
    ensures e.ciLow == Some(d) && e.ciHigh == Some(d) && e.candidate.mean - e.baseline.mean == d
    ensures e.baseline.mean >= 0.0 && e.candidate.mean >= 0.0
    ensures var breached := AdverseChange(direction, e.baseline.mean, e.candidate.mean, Some(t)).1;
            OutcomeOf(breached, Some(t), direction, Some(e)) == if breached then Regression else Pass
  {
    EvidenceFacts(e, b, c);
    IntervalBounds(e, b, c, d, d);
    MeanWithin(b, c, d, d);
    SumNonNegative(b);
    SumNonNegative(c);
    PointIntervalDecides(direction, e, t, d);
  }

  lemma PointIntervalDecides(direction: Direction, e: MetricEvidence, t: real, d: real)
    requires e.ciLow == Some(d) && e.ciHigh == Some(d) && e.candidate.mean - e.baseline.mean == d
    requires e.nPairs >= MIN_PAIRS_TO_BLOCK && t >= 0.0 && e.baseline.mean >= 0.0 && e.candidate.mean >= 0.0
    ensures var breached := AdverseChange(direction, e.baseline.mean, e.candidate.mean, Some(t)).1;
            OutcomeOf(breached, Some(t), direction, Some(e)) == if breached then Regression else Pass
  {
    BreachMeaning(direction, e.baseline.mean, e.candidate.mean, t);
    ProductNonNegative(t, e.baseline.mean);
    if e.baseline.mean == 0.0 {
      assert Times(t, e.baseline.mean) == 0.0;
    }
  }
}
