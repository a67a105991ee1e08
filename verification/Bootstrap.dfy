/** The paired percentile bootstrap and the evidence built from it, for every random stream. */
module Bootstrap {
  import opened Basics
  import opened Sequences
  import opened Domain
  import opened Ranks

  /** `random.Random(seed)`: draw number `i` of resample `r` below `n`, an arbitrary index in range. */
  type Rng = f: (int, nat, nat, nat) -> nat
    | forall seed, r, i, n :: n > 0 ==> f(seed, r, i, n) < n
    witness (seed, r, i, n) => 0

  const MIN_PAIRS_FOR_CI := 3

  // ----- Percentiles by linear interpolation -----

  function Ceil(x: real): int { -((-x).Floor) }

  lemma FractionOf(m: real, q: real)
    requires m >= 0.0 && 0.0 <= q <= 1.0
    ensures 0.0 <= m * q <= m
  {
    MulMonotone(m, 0.0, q);
    MulMonotone(m, q, 1.0);
  }

  /** The fractional position of level `q` among `n` ordered values. */
  function Position(q: real, n: nat): (pos: real)
    requires 0.0 <= q <= 1.0 && n >= 1
    ensures 0.0 <= pos <= (n - 1) as real
  {
    FractionOf((n - 1) as real, q);
    (n - 1) as real * q
  }

  lemma PositionMonotone(q: real, q': real, n: nat)
    requires 0.0 <= q <= q' <= 1.0 && n >= 1
    ensures Position(q, n) <= Position(q', n)
  {
    MulMonotone((n - 1) as real, q, q');
  }

  /** Linear-interpolation percentile of an already sorted, non-empty sequence. */
  function Percentile(ordered: seq<real>, q: real): real
    requires ordered != [] && 0.0 <= q <= 1.0
  {
    if |ordered| == 1 then ordered[0] else Interpolate(ordered, Position(q, |ordered|))
  }

  /** The value at a fractional position. */
  function Interpolate(ordered: seq<real>, pos: real): real
    requires 0.0 <= pos <= (|ordered| - 1) as real
  {
    var lo, hi := pos.Floor, Ceil(pos);
    if lo == hi then ordered[lo] else Lerp(ordered[lo], ordered[hi], pos - lo as real)
  }

  lemma InterpolateBetween(ordered: seq<real>, pos: real)
    requires 0.0 <= pos <= (|ordered| - 1) as real
    requires Sorted(ordered, RealLeq)
    ensures ordered[pos.Floor] <= Interpolate(ordered, pos) <= ordered[Ceil(pos)]
  {
    var lo, hi := pos.Floor, Ceil(pos);
    if lo != hi {
      assert hi == lo + 1 && RealLeq(ordered[lo], ordered[hi]);
      LerpBetween(ordered[lo], ordered[hi], pos - lo as real);
    }
  }

  lemma InterpolateMonotone(ordered: seq<real>, p: real, p': real)
    requires 0.0 <= p <= p' <= (|ordered| - 1) as real
    requires Sorted(ordered, RealLeq)
    ensures Interpolate(ordered, p) <= Interpolate(ordered, p')
  {
    var lo, lo' := p.Floor, p'.Floor;
    InterpolateBetween(ordered, p);
    InterpolateBetween(ordered, p');
    if lo < lo' {
      assert Ceil(p) <= lo';
      assert Ceil(p) == lo' || RealLeq(ordered[Ceil(p)], ordered[lo']);
    } else if p != lo as real {
      var hi := lo + 1;
      assert Ceil(p) == hi && Ceil(p') == hi;
      assert RealLeq(ordered[lo], ordered[hi]);
      LerpMonotone(ordered[lo], ordered[hi], p - lo as real, p' - lo as real);
    }
  }

  lemma InterpolateInRange(ordered: seq<real>, pos: real)
    requires 0.0 <= pos <= (|ordered| - 1) as real
    requires Sorted(ordered, RealLeq)
    ensures ordered[0] <= Interpolate(ordered, pos) <= ordered[|ordered| - 1]
  {
    var lo, hi, last := pos.Floor, Ceil(pos), |ordered| - 1;
    InterpolateBetween(ordered, pos);
    assert lo == 0 || RealLeq(ordered[0], ordered[lo]);
    assert hi == last || RealLeq(ordered[hi], ordered[last]);
  }

  /** A percentile stays within the sample and grows with its level. */
  lemma PercentileFacts(ordered: seq<real>, q: real, q': real)
    requires ordered != [] && 0.0 <= q <= q' <= 1.0
    requires Sorted(ordered, RealLeq)
    ensures ordered[0] <= Percentile(ordered, q) <= Percentile(ordered, q') <= ordered[|ordered| - 1]
  {
    if |ordered| > 1 {
      var p, p' := Position(q, |ordered|), Position(q', |ordered|);
      PositionMonotone(q, q', |ordered|);
      InterpolateMonotone(ordered, p, p');
      InterpolateInRange(ordered, p);
      InterpolateInRange(ordered, p');
    }
  }

  /** It stands, among the values it was sorted from, exactly where its level says. */
  lemma PercentileAtLevel(values: seq<real>, q: real)
    requires values != [] && 0.0 <= q <= 1.0
    ensures var s := Sort(values, RealLeq); s != [] && AtLevel(values, q, Percentile(s, q))
  {
    var s, n := Sort(values, RealLeq), |values|;
    SortPermutes(values, RealLeq);
    assert LevelRank(q, n) == Position(q, n);
    InterpolatedAtRank(values, Position(q, n));
    if n == 1 {
      assert Position(q, n) == 0.0;
    }
  }

  lemma InterpolatedAtRank(values: seq<real>, at: real)
    requires values != [] && |Sort(values, RealLeq)| == |values| && 0.0 <= at <= (|values| - 1) as real
    ensures AtRank(values, at, Interpolate(Sort(values, RealLeq), at))
  {
    var s, k := Sort(values, RealLeq), at.Floor;
    var next := Neighbour(k, |values|);
    SortedRanked(values, k);
    SortedRanked(values, next);
    if at == k as real {
      LerpAtStart(s[k], s[next]);
    } else {
      assert Ceil(at) == k + 1 == next;
    }
    RankFound(values, at, Interpolate(s, at), s[k], s[next]);
  }

  // ----- The bootstrap interval -----

  /** One resample of the paired differences, with replacement. */
  function Resample(diffs: seq<real>, seed: int, r: nat, count: nat, rng: Rng): (s: seq<real>)
    requires diffs != []
    ensures |s| == count
    ensures forall i :: 0 <= i < count ==> s[i] == diffs[rng(seed, r, i, |diffs|)]
  {
    seq(count, i requires 0 <= i < count => diffs[rng(seed, r, i, |diffs|)])
  }

  /** The means of the first `resamples` resamples. */
  function Estimates(diffs: seq<real>, seed: int, resamples: nat, rng: Rng): (s: seq<real>)
    requires diffs != []
    ensures |s| == resamples
    ensures forall r :: 0 <= r < resamples ==> s[r] == Mean(Resample(diffs, seed, r, |diffs|, rng))
  {
    seq(resamples, r requires 0 <= r < resamples => Mean(Resample(diffs, seed, r, |diffs|, rng)))
  }

  predicate AllEqual(s: seq<real>) {
    forall i :: 0 <= i < |s| ==> s[i] == s[0]
  }

  datatype Interval = NoInterval | Interval(low: real, high: real)

  /** The value `paired_bootstrap_ci` returns or the error it raises. */
  function BootstrapInterval(
    baseline: seq<real>, candidate: seq<real>, confidence: real, resamples: int, seed: int, rng: Rng
  ): Result<Interval>
  {
    if !(0.0 < confidence < 1.0) then Err(ConfigError)
    else if |candidate| != |baseline| then Err(ConfigError)
    else if |baseline| < MIN_PAIRS_FOR_CI then Ok(NoInterval)
    else IntervalOfDiffs(Diffs(baseline, candidate), (1.0 - confidence) / 2.0, resamples, seed, rng)
  }

  /** The interval of the paired differences that leaves `tail` out on either side. */
  function IntervalOfDiffs(diffs: seq<real>, tail: real, resamples: int, seed: int, rng: Rng): Result<Interval>
    requires diffs != [] && 0.0 < tail < 0.5
  {
    if AllEqual(diffs) then Ok(Interval(diffs[0], diffs[0]))
    else if resamples <= 0 then Err(IndexError)
    else Ok(PercentileInterval(SortedEstimates(diffs, seed, resamples, rng), tail, 1.0 - tail))
  }

  function PercentileInterval(ordered: seq<real>, from: real, to: real): Interval
    requires ordered != [] && 0.0 <= from <= 1.0 && 0.0 <= to <= 1.0
  {
    Interval(Percentile(ordered, from), Percentile(ordered, to))
  }

  function SortedEstimates(diffs: seq<real>, seed: int, resamples: nat, rng: Rng): (s: seq<real>)
    requires diffs != []
    ensures |s| == resamples
  {
    SortPermutes(Estimates(diffs, seed, resamples, rng), RealLeq);
    Sort(Estimates(diffs, seed, resamples, rng), RealLeq)
  }

  /** The inner loop: the total of one resample. */
  method ResampleTotal(diffs: seq<real>, seed: int, r: nat, rng: Rng) returns (total: real)
    requires diffs != []
    ensures total == Sum(Resample(diffs, seed, r, |diffs|, rng))
  {
    var n := |diffs|;
    total := 0.0;
    for i := 0 to n
      invariant total == Sum(Resample(diffs, seed, r, i, rng))
    {
      ghost var more := Resample(diffs, seed, r, i + 1, rng);
      assert more[..i] == Resample(diffs, seed, r, i, rng);
      total := total + diffs[rng(seed, r, i, n)];
    }
  }

  /** The outer loop: the mean of every resample; a non-positive count draws none. */
  method ResampleMeans(diffs: seq<real>, seed: int, resamples: int, rng: Rng) returns (estimates: seq<real>)
    requires diffs != []
    ensures estimates == Estimates(diffs, seed, if resamples < 0 then 0 else resamples, rng)
  {
    estimates := [];
    var r := 0;
    while r < resamples
      invariant 0 <= r && (r == 0 || r <= resamples)
      invariant estimates == Estimates(diffs, seed, r, rng)
    {
      var total := ResampleTotal(diffs, seed, r, rng);
      estimates := estimates + [total / |diffs| as real];
      r := r + 1;
    }
  }

  /** `paired_bootstrap_ci`: nested accumulation loops over an arbitrary random stream. */
  method PairedBootstrapCi(
    baseline: seq<real>, candidate: seq<real>, confidence: real, resamples: int, seed: int, rng: Rng
  ) returns (ci: Result<Interval>)
    ensures ci == BootstrapInterval(baseline, candidate, confidence, resamples, seed, rng)
    ensures ci.Ok? && |baseline| >= MIN_PAIRS_FOR_CI && resamples >= 1 ==>
              |candidate| == |baseline| && IsInterval(ci.value, baseline, candidate, confidence, resamples, seed, rng)
    ensures ci.Ok? ==> (ci.value.NoInterval? <==> |baseline| < MIN_PAIRS_FOR_CI)
  {
    if 0.0 < confidence < 1.0 && |baseline| == |candidate| >= MIN_PAIRS_FOR_CI && resamples >= 1 {
      IntervalAtLevels(baseline, candidate, confidence, resamples, seed, rng);
    }
    if !(0.0 < confidence < 1.0) {
      return Err(ConfigError);
    }
    var n := |baseline|;
    if |candidate| != n {
      return Err(ConfigError);
    }
    if n < MIN_PAIRS_FOR_CI {
      return Ok(NoInterval);
    }
    ci := DiffsCi(Diffs(baseline, candidate), (1.0 - confidence) / 2.0, resamples, seed, rng);
  }

  /** The interval of the differences, once the arguments have been checked. */
  method DiffsCi(diffs: seq<real>, tail: real, resamples: int, seed: int, rng: Rng) returns (ci: Result<Interval>)
    requires diffs != [] && 0.0 < tail < 0.5
    ensures ci == IntervalOfDiffs(diffs, tail, resamples, seed, rng)
  {
    if AllEqual(diffs) {
      return Ok(Interval(diffs[0], diffs[0]));
    }
    var estimates := ResampleMeans(diffs, seed, resamples, rng);
    if estimates == [] {
      // the percentile of an empty list indexes out of range
      return Err(IndexError);
    }
    var ordered := Sort(estimates, RealLeq);
    SortPermutes(estimates, RealLeq);
    ci := Ok(PercentileInterval(ordered, tail, 1.0 - tail));
  }

  // ----- Where the interval stands -----

  /** The means of the resamples, stated on the two series: resample `r` draws pair `rng(seed, r, i, n)`
      as its i-th. */
  ghost function DrawnMeans(b: seq<real>, c: seq<real>, resamples: nat, seed: int, rng: Rng): (means: seq<real>)
    requires |b| == |c| && b != []
    ensures |means| == resamples
  {
    seq(resamples, r requires 0 <= r < resamples =>
      Mean(seq(|b|, i requires 0 <= i < |b| => c[rng(seed, r, i, |b|)] - b[rng(seed, r, i, |b|)])))
  }

  lemma DrawnMeansAreEstimates(b: seq<real>, c: seq<real>, resamples: nat, seed: int, rng: Rng)
    requires |b| == |c| && b != []
    ensures DrawnMeans(b, c, resamples, seed, rng) == Estimates(Diffs(b, c), seed, resamples, rng)
  {
    var means, es := DrawnMeans(b, c, resamples, seed, rng), Estimates(Diffs(b, c), seed, resamples, rng);
    forall r | 0 <= r < resamples
      ensures means[r] == es[r]
    {
      var draws := seq(|b|, i requires 0 <= i < |b| => c[rng(seed, r, i, |b|)] - b[rng(seed, r, i, |b|)]);
      assert draws == Resample(Diffs(b, c), seed, r, |b|, rng);
    }
  }

  /** The ends of `ci` are the values at levels `tail` and 1 - `tail` of these means. */
  ghost predicate Encloses(ci: Interval, means: seq<real>, tail: real) {
    ci.Interval? && AtLevel(means, tail, ci.low) && AtLevel(means, 1.0 - tail, ci.high)
  }

  /** The interval leaves half of what the confidence does not cover out on either side of the resample means. */
  ghost predicate IsInterval(
    ci: Interval, b: seq<real>, c: seq<real>, confidence: real, resamples: nat, seed: int, rng: Rng)
    requires |b| == |c| && b != []
  {
    Encloses(ci, DrawnMeans(b, c, resamples, seed, rng), (1.0 - confidence) / 2.0)
  }

  lemma ConstantAtLevel(values: seq<real>, q: real, d: real)
    requires values != [] && 0.0 <= q <= 1.0 && forall i :: 0 <= i < |values| ==> values[i] == d
    ensures AtLevel(values, q, d)
  {
    var at := LevelRank(q, |values|);
    LevelRankBounds(q, |values|);
    CountsExtreme(values, d);
    assert values[0] in values;
    RankFound(values, at, d, d, d);
  }

  lemma ConstantEstimates(diffs: seq<real>, seed: int, resamples: nat, rng: Rng)
    requires diffs != [] && AllEqual(diffs)
    ensures forall r :: 0 <= r < resamples ==> Estimates(diffs, seed, resamples, rng)[r] == diffs[0]
  {
    forall r | 0 <= r < resamples
      ensures Estimates(diffs, seed, resamples, rng)[r] == diffs[0]
    {
      MeanBounds(Resample(diffs, seed, r, |diffs|, rng), diffs[0], diffs[0]);
    }
  }

  lemma IntervalOfDiffsAtLevels(diffs: seq<real>, tail: real, resamples: nat, seed: int, rng: Rng)
    requires diffs != [] && 0.0 < tail < 0.5 && resamples >= 1
    ensures var ci, means := IntervalOfDiffs(diffs, tail, resamples, seed, rng), Estimates(diffs, seed, resamples, rng);
            ci.Ok? && Encloses(ci.value, means, tail)
  {
    var means := Estimates(diffs, seed, resamples, rng);
    if AllEqual(diffs) {
      ConstantEstimates(diffs, seed, resamples, rng);
      ConstantAtLevel(means, tail, diffs[0]);
      ConstantAtLevel(means, 1.0 - tail, diffs[0]);
    } else {
      PercentileAtLevel(means, tail);
      PercentileAtLevel(means, 1.0 - tail);
    }
  }

  /** For every stream and any series of at least three pairs, the collapsed interval of equal differences
      included. */
  lemma IntervalAtLevels(
    b: seq<real>, c: seq<real>, confidence: real, resamples: nat, seed: int, rng: Rng)
    requires 0.0 < confidence < 1.0 && |b| == |c| >= MIN_PAIRS_FOR_CI && resamples >= 1
    ensures var ci := BootstrapInterval(b, c, confidence, resamples, seed, rng);
            ci.Ok? && IsInterval(ci.value, b, c, confidence, resamples, seed, rng)
  {
    DrawnMeansAreEstimates(b, c, resamples, seed, rng);
    IntervalOfDiffsAtLevels(Diffs(b, c), (1.0 - confidence) / 2.0, resamples, seed, rng);
  }

  // ----- Exchanging the two series -----

  /** The interval of the opposite differences. */
  function Opposite(ci: Interval): Interval { if ci.Interval? then Interval(-ci.high, -ci.low) else ci }

  lemma DrawnMeansOpposite(b: seq<real>, c: seq<real>, resamples: nat, seed: int, rng: Rng)
    requires |b| == |c| && b != []
    ensures DrawnMeans(c, b, resamples, seed, rng) == Negated(DrawnMeans(b, c, resamples, seed, rng))
  {
    var l, m := DrawnMeans(c, b, resamples, seed, rng), DrawnMeans(b, c, resamples, seed, rng);
    forall r | 0 <= r < resamples
      ensures l[r] == -m[r]
    {
      var there := seq(|b|, i requires 0 <= i < |b| => c[rng(seed, r, i, |b|)] - b[rng(seed, r, i, |b|)]);
      var back := seq(|b|, i requires 0 <= i < |b| => b[rng(seed, r, i, |b|)] - c[rng(seed, r, i, |b|)]);
      MeanOpposite(there, back);
    }
  }

  lemma {:induction false} SumOpposite(s: seq<real>, t: seq<real>)
    requires |s| == |t| && forall i :: 0 <= i < |s| ==> t[i] == -s[i]
    ensures Sum(t) == -Sum(s)
  {
    if s != [] {
      SumOpposite(s[..|s| - 1], t[..|t| - 1]);
    }
  }

  lemma MeanOpposite(s: seq<real>, t: seq<real>)
    requires |s| == |t| && forall i :: 0 <= i < |s| ==> t[i] == -s[i]
    ensures Mean(t) == -Mean(s)
  {
    SumOpposite(s, t);
    if s != [] {
      var n := |s| as real;
      assert (-Sum(s)) / n == -(Sum(s) / n);
    }
  }

  lemma OppositeEnds(means: seq<real>, tail: real, there: Interval, back: Interval)
    requires means != [] && 0.0 <= tail <= 1.0
    requires Encloses(there, means, tail) && Encloses(back, Negated(means), tail)
    ensures back == Opposite(there)
  {
    assert 1.0 - (1.0 - tail) == tail;
    NegatedLevel(means, tail, there.low, back.high);
    NegatedLevel(means, 1.0 - tail, there.high, back.low);
  }

  lemma OppositeIntervals(
    b: seq<real>, c: seq<real>, confidence: real, resamples: nat, seed: int, rng: Rng, there: Interval, back: Interval)
    requires 0.0 < confidence < 1.0 && |b| == |c| && b != [] && resamples >= 1
    requires IsInterval(there, b, c, confidence, resamples, seed, rng)
    requires IsInterval(back, c, b, confidence, resamples, seed, rng)
    ensures back == Opposite(there)
  {
    var tail, means := (1.0 - confidence) / 2.0, DrawnMeans(b, c, resamples, seed, rng);
    assert Encloses(there, means, tail) && Encloses(back, DrawnMeans(c, b, resamples, seed, rng), tail);
    DrawnMeansOpposite(b, c, resamples, seed, rng);
    OppositeEnds(means, tail, there, back);
  }

  /** Exchanging baseline and candidate, with the same stream, turns [l, h] into [-h, -l]. */
  lemma ExchangeNegates(b: seq<real>, c: seq<real>, confidence: real, resamples: int, seed: int, rng: Rng)
    ensures var there := BootstrapInterval(b, c, confidence, resamples, seed, rng);
            var back := BootstrapInterval(c, b, confidence, resamples, seed, rng);
            back == if there.Ok? then Ok(Opposite(there.value)) else there
  {
    if 0.0 < confidence < 1.0 && |b| == |c| >= MIN_PAIRS_FOR_CI {
      if resamples >= 1 {
        IntervalAtLevels(b, c, confidence, resamples, seed, rng);
        IntervalAtLevels(c, b, confidence, resamples, seed, rng);
        OppositeIntervals(b, c, confidence, resamples, seed, rng,
                          BootstrapInterval(b, c, confidence, resamples, seed, rng).value,
                          BootstrapInterval(c, b, confidence, resamples, seed, rng).value);
      } else {
        var there, back := Diffs(b, c), Diffs(c, b);
        assert forall i :: 0 <= i < |b| ==> back[i] == -there[i];
        assert AllEqual(there) <==> AllEqual(back);
      }
    }
  }

  // ----- Facts that hold for every random stream -----

  lemma EstimatesBounded(diffs: seq<real>, seed: int, resamples: nat, rng: Rng, lo: real, hi: real)
    requires diffs != []
    requires forall i :: 0 <= i < |diffs| ==> lo <= diffs[i] <= hi
    ensures forall e :: e in SortedEstimates(diffs, seed, resamples, rng) ==> lo <= e <= hi
  {
    var es := Estimates(diffs, seed, resamples, rng);
    SortPermutes(es, RealLeq);
    forall e | e in es
      ensures lo <= e <= hi
    {
      var r :| 0 <= r < |es| && es[r] == e;
      MeanBounds(Resample(diffs, seed, r, |diffs|, rng), lo, hi);
    }
  }

  lemma DiffsIntervalWithinRange(diffs: seq<real>, tail: real, resamples: int, seed: int, rng: Rng, lo: real, hi: real)
    requires diffs != [] && 0.0 < tail < 0.5
    requires forall i :: 0 <= i < |diffs| ==> lo <= diffs[i] <= hi
    ensures var ci := IntervalOfDiffs(diffs, tail, resamples, seed, rng);
            ci.Ok? ==> ci.value.Interval? && lo <= ci.value.low <= ci.value.high <= hi
  {
    if !AllEqual(diffs) && resamples > 0 {
      var ordered := SortedEstimates(diffs, seed, resamples, rng);
      RealLeqTotal();
      SortSorts(Estimates(diffs, seed, resamples, rng), RealLeq);
      EstimatesBounded(diffs, seed, resamples, rng, lo, hi);
      PercentileFacts(ordered, tail, 1.0 - tail);
      assert ordered[0] in ordered && ordered[|ordered| - 1] in ordered;
    }
  }

  /** The interval is never inverted and never leaves the range of the paired differences. */
  lemma IntervalWithinRange(
    baseline: seq<real>, candidate: seq<real>, confidence: real, resamples: int, seed: int, rng: Rng,
    lo: real, hi: real)
    requires |baseline| == |candidate|
    requires forall i :: 0 <= i < |baseline| ==> lo <= candidate[i] - baseline[i] <= hi
    ensures var ci := BootstrapInterval(baseline, candidate, confidence, resamples, seed, rng);
            ci.Ok? && ci.value.Interval? ==> lo <= ci.value.low <= ci.value.high <= hi
  {
    if 0.0 < confidence < 1.0 && |baseline| >= MIN_PAIRS_FOR_CI {
      DiffsIntervalWithinRange(Diffs(baseline, candidate), (1.0 - confidence) / 2.0, resamples, seed, rng, lo, hi);
    }
  }

  /** Every series of numbers has a smallest and a largest member. */
  lemma {:induction false} Extremes(s: seq<real>) returns (lo: real, hi: real)
    requires s != []
    ensures lo in s && hi in s
    ensures forall i :: 0 <= i < |s| ==> lo <= s[i] <= hi
  {
    if |s| == 1 {
      lo, hi := s[0], s[0];
    } else {
      var x := s[|s| - 1];
      lo, hi := Extremes(s[..|s| - 1]);
      assert forall i :: 0 <= i < |s| - 1 ==> s[i] == s[..|s| - 1][i];
      lo, hi := if x < lo then x else lo, if x > hi then x else hi;
    }
  }

  /** When the interval exists, whatever the stream: it is not inverted, and two actual paired
      differences enclose it. */
  lemma IntervalWellFormed(
    baseline: seq<real>, candidate: seq<real>, confidence: real, resamples: int, seed: int, rng: Rng)
    requires BootstrapInterval(baseline, candidate, confidence, resamples, seed, rng).Ok?
    requires |baseline| >= MIN_PAIRS_FOR_CI
    ensures var ci := BootstrapInterval(baseline, candidate, confidence, resamples, seed, rng).value;
            && ci.Interval? && ci.low <= ci.high
            && (exists i :: 0 <= i < |baseline| && candidate[i] - baseline[i] <= ci.low)
            && (exists j :: 0 <= j < |baseline| && ci.high <= candidate[j] - baseline[j])
  {
    var diffs := Diffs(baseline, candidate);
    var lo, hi := Extremes(diffs);
    IntervalWithinRange(baseline, candidate, confidence, resamples, seed, rng, lo, hi);
    var i :| 0 <= i < |diffs| && diffs[i] == lo;
    var j :| 0 <= j < |diffs| && diffs[j] == hi;
    assert candidate[i] - baseline[i] == lo && candidate[j] - baseline[j] == hi;
  }

  // ----- Evidence -----

  function Summarize(values: seq<real>): SampleSummary {
    SampleSummary(|values|, Mean(values))
  }

  /** The constructor: reject what is not valid. */
  function Construct(e: MetricEvidence): Result<MetricEvidence> {
    if e.Valid() then Ok(e) else Err(DomainValidationError)
  }

  function Low(ci: Interval): Option<real> {
    if ci.Interval? then Some(ci.low) else None
  }

  function High(ci: Interval): Option<real> {
    if ci.Interval? then Some(ci.high) else None
  }

  /** `metric_evidence`. */
  function EvidenceOf(
    metric: string, kind: MetricKind, baseline: seq<real>, candidate: seq<real>,
    confidence: real, resamples: int, seed: int, dropped: int, rng: Rng
  ): Result<MetricEvidence>
  {
    if |baseline| != |candidate| then Err(ConfigError)
    else
      var b, c := Summarize(baseline), Summarize(candidate);
      var diffs := Diffs(baseline, candidate);
      var delta := c.mean - b.mean;
      var ci :- BootstrapInterval(baseline, candidate, confidence, resamples, seed, rng);
      var insufficient := |diffs| < MIN_PAIRS_FOR_CI;
      Construct(MetricEvidence(
        metric, kind, |diffs|, b, c, Summarize(diffs), delta,
        if b.mean == 0.0 then None else Some(delta / b.mean),
        confidence, Low(ci), High(ci),
        !insufficient && ci.Interval? && (ci.low > 0.0 || ci.high < 0.0),
        insufficient, resamples, seed, dropped))
  }

  /** What an evidence item says of the two series it was built from. */
  ghost predicate SpeaksOf(
    e: MetricEvidence, metric: string, kind: MetricKind, b: seq<real>, c: seq<real>, confidence: real, resamples: int,
    seed: int, dropped: int, rng: Rng)
    requires |b| == |c|
  {
    && e.metric == metric && e.kind == kind && e.nPairs == |b|
    && e.baseline == SampleSummary(|b|, Mean(b)) && e.candidate == SampleSummary(|c|, Mean(c))
    && e.delta == Mean(c) - Mean(b) && e.pairedDelta == SampleSummary(|b|, e.delta)
    && (e.relativeChange.None? <==> Mean(b) == 0.0)
    && (e.relativeChange.Some? ==> Times(e.relativeChange.value, Mean(b)) == e.delta)
    && e.confidenceLevel == confidence && e.resamples == resamples && e.seed == seed
    && e.droppedProviderFailures == dropped
    && e.insufficientEvidence == (|b| < MIN_PAIRS_FOR_CI)
    && e.ciLow.Some? == e.ciHigh.Some? == (|b| >= MIN_PAIRS_FOR_CI)
    && (e.ciLow.Some? && resamples >= 1 ==>
          IsInterval(Interval(e.ciLow.value, e.ciHigh.value), b, c, confidence, resamples, seed, rng))
    && (e.ciExcludesZero <==> e.ciLow.Some? && (e.ciLow.value > 0.0 || e.ciHigh.value < 0.0))
  }

  /** Every item speaks of the series, the settings and the stream it was built with. */
  lemma EvidenceSpeaks(
    metric: string, kind: MetricKind, b: seq<real>, c: seq<real>, confidence: real, resamples: int, seed: int,
    dropped: int, rng: Rng)
    requires EvidenceOf(metric, kind, b, c, confidence, resamples, seed, dropped, rng).Ok?
    ensures var e := EvidenceOf(metric, kind, b, c, confidence, resamples, seed, dropped, rng).value;
            |b| == |c| && SpeaksOf(e, metric, kind, b, c, confidence, resamples, seed, dropped, rng)
  {
    MeanDiffs(b, c);
    if Mean(b) != 0.0 {
      var delta := Mean(c) - Mean(b);
      assert Times(delta / Mean(b), Mean(b)) == delta;
    }
    if |b| >= MIN_PAIRS_FOR_CI {
      IntervalWellFormed(b, c, confidence, resamples, seed, rng);
      if resamples >= 1 {
        IntervalAtLevels(b, c, confidence, resamples, seed, rng);
      }
    }
  }

  /** Construction never rejects what is built: the outcome depends only on the arguments'
      shape, and the delta of the means is the mean of the paired differences. */
  lemma EvidenceNeverRejected(
    metric: string, kind: MetricKind, baseline: seq<real>, candidate: seq<real>,
    confidence: real, resamples: int, seed: int, dropped: nat, rng: Rng)
    ensures var e := EvidenceOf(metric, kind, baseline, candidate, confidence, resamples, seed, dropped, rng);
            && (e.Ok? <==>
                  && 0.0 < confidence < 1.0
                  && |baseline| == |candidate|
                  && (|baseline| < MIN_PAIRS_FOR_CI || AllEqual(Diffs(baseline, candidate)) || resamples >= 1))
            && (e.Err? ==> e.error != DomainValidationError)
            && (e.Ok? ==> e.value.Valid() && e.value.delta == e.value.pairedDelta.mean)
  {
    if |baseline| == |candidate| {
      MeanDiffs(baseline, candidate);
      var ci := BootstrapInterval(baseline, candidate, confidence, resamples, seed, rng);
      if ci.Ok? && |baseline| >= MIN_PAIRS_FOR_CI {
        IntervalWellFormed(baseline, candidate, confidence, resamples, seed, rng);
      }
    }
  }

  // ----- Change of unit -----

  lemma ScaleDiffs(k: real, b: seq<real>, c: seq<real>)
    requires |b| == |c|
    ensures Diffs(Scale(k, b), Scale(k, c)) == Scale(k, Diffs(b, c))
  {
    var l, r := Diffs(Scale(k, b), Scale(k, c)), Scale(k, Diffs(b, c));
    forall i | 0 <= i < |b|
      ensures l[i] == r[i]
    {
      assert Times(k, c[i]) - Times(k, b[i]) == Times(k, c[i] - b[i]);
    }
  }

  lemma ScaleCancels(k: real, x: real, y: real)
    requires k > 0.0
    ensures Times(k, x) == Times(k, y) <==> x == y
  {
    ScaleOrder(k, x, y);
    ScaleOrder(k, y, x);
  }

  lemma ScaleAllEqual(k: real, s: seq<real>)
    requires k > 0.0
    ensures AllEqual(Scale(k, s)) <==> AllEqual(s)
  {
    var t := Scale(k, s);
    forall i | 0 <= i < |s|
      ensures t[i] == t[0] <==> s[i] == s[0]
    {
      ScaleCancels(k, s[i], s[0]);
    }
  }

  lemma ScaleResample(k: real, diffs: seq<real>, seed: int, r: nat, rng: Rng)
    requires diffs != []
    ensures Mean(Resample(Scale(k, diffs), seed, r, |diffs|, rng))
        == Times(k, Mean(Resample(diffs, seed, r, |diffs|, rng)))
  {
    var s, s' := Resample(diffs, seed, r, |diffs|, rng), Resample(Scale(k, diffs), seed, r, |diffs|, rng);
    forall i | 0 <= i < |diffs|
      ensures s'[i] == Scale(k, s)[i]
    {
      assert s'[i] == Times(k, diffs[rng(seed, r, i, |diffs|)]);
    }
    assert s' == Scale(k, s);
    MeanScale(k, s);
  }

  lemma ScaleEstimates(k: real, diffs: seq<real>, seed: int, resamples: nat, rng: Rng)
    requires k > 0.0 && diffs != []
    ensures SortedEstimates(Scale(k, diffs), seed, resamples, rng)
         == Scale(k, SortedEstimates(diffs, seed, resamples, rng))
  {
    var es, es' := Estimates(diffs, seed, resamples, rng), Estimates(Scale(k, diffs), seed, resamples, rng);
    forall r | 0 <= r < resamples
      ensures es'[r] == Scale(k, es)[r]
    {
      ScaleResample(k, diffs, seed, r, rng);
    }
    assert es' == Scale(k, es);
    SortScale(k, es);
  }

  lemma ScaleLerp(k: real, x: real, y: real, w: real)
    ensures Lerp(Times(k, x), Times(k, y), w) == Times(k, Lerp(x, y, w))
  {
    calc {
      k * x + (k * y - k * x) * w;
      k * x + (k * (y - x)) * w;
      k * x + k * ((y - x) * w);
      k * (x + (y - x) * w);
    }
  }

  lemma ScalePercentile(k: real, ordered: seq<real>, q: real)
    requires ordered != [] && 0.0 <= q <= 1.0
    ensures Percentile(Scale(k, ordered), q) == Times(k, Percentile(ordered, q))
  {
    if |ordered| > 1 {
      var pos := Position(q, |ordered|);
      var lo, hi := pos.Floor, Ceil(pos);
      ScaleLerp(k, ordered[lo], ordered[hi], pos - lo as real);
    }
  }

  function ScaleInterval(k: real, ci: Interval): Interval {
    if ci.Interval? then Interval(Times(k, ci.low), Times(k, ci.high)) else ci
  }

  lemma ScalePercentileInterval(k: real, ordered: seq<real>, from: real, to: real)
    requires ordered != [] && 0.0 <= from <= 1.0 && 0.0 <= to <= 1.0
    ensures PercentileInterval(Scale(k, ordered), from, to) == ScaleInterval(k, PercentileInterval(ordered, from, to))
  {
    ScalePercentile(k, ordered, from);
    ScalePercentile(k, ordered, to);
  }

  /** `scaled` is `plain` in a unit `k` times smaller; the same error otherwise. */
  predicate ScaledBy(k: real, plain: Result<Interval>, scaled: Result<Interval>) {
    match plain
    case Ok(ci) => scaled == Ok(ScaleInterval(k, ci))
    case Err(_) => scaled == plain
  }

  lemma IntervalOfDiffsScales(k: real, diffs: seq<real>, tail: real, resamples: int, seed: int, rng: Rng)
    requires k > 0.0 && diffs != [] && 0.0 < tail < 0.5
    ensures ScaledBy(k, IntervalOfDiffs(diffs, tail, resamples, seed, rng),
                        IntervalOfDiffs(Scale(k, diffs), tail, resamples, seed, rng))
  {
    ScaleAllEqual(k, diffs);
    if AllEqual(diffs) {
      var d := diffs[0];
      assert Scale(k, diffs)[0] == Times(k, d);
      assert IntervalOfDiffs(diffs, tail, resamples, seed, rng) == Ok(Interval(d, d));
    } else if resamples > 0 {
      ScaleEstimates(k, diffs, seed, resamples, rng);
      ScalePercentileInterval(k, SortedEstimates(diffs, seed, resamples, rng), tail, 1.0 - tail);
    }
  }

  /** Multiplying both series by one positive constant multiplies both ends of the interval. */
  lemma IntervalScales(
    k: real, b: seq<real>, c: seq<real>, confidence: real, resamples: int, seed: int, rng: Rng)
    requires k > 0.0
    ensures ScaledBy(k, BootstrapInterval(b, c, confidence, resamples, seed, rng),
                        BootstrapInterval(Scale(k, b), Scale(k, c), confidence, resamples, seed, rng))
  {
    if 0.0 < confidence < 1.0 && |b| == |c| && |b| >= MIN_PAIRS_FOR_CI {
      ScaleDiffs(k, b, c);
      IntervalOfDiffsScales(k, Diffs(b, c), (1.0 - confidence) / 2.0, resamples, seed, rng);
    }
  }
}
