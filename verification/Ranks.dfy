/** Ranks by counting: the k-th smallest member of a collection, and the value at a level of it. */
module Ranks {
  import opened Sequences

  /** How many members are at most `v`, and how many are below it. */
  function CountAtMost(s: seq<real>, v: real): nat {
    if s == [] then 0 else CountAtMost(s[..|s| - 1], v) + if s[|s| - 1] <= v then 1 else 0
  }

  function CountBelow(s: seq<real>, v: real): nat {
    if s == [] then 0 else CountBelow(s[..|s| - 1], v) + if s[|s| - 1] < v then 1 else 0
  }

  lemma {:induction false} CountsOfConcat(a: seq<real>, b: seq<real>, v: real)
    ensures CountAtMost(a + b, v) == CountAtMost(a, v) + CountAtMost(b, v)
    ensures CountBelow(a + b, v) == CountBelow(a, v) + CountBelow(b, v)
    decreases |b|
  {
    if b == [] {
      assert a + b == a;
    } else {
      CountsOfConcat(a, b[..|b| - 1], v);
      assert (a + b)[..|a + b| - 1] == a + b[..|b| - 1];
    }
  }

  lemma {:induction false} CountsOfInsert(x: real, s: seq<real>, v: real)
    ensures CountAtMost(Insert(x, s, RealLeq), v) == CountAtMost([x] + s, v)
    ensures CountBelow(Insert(x, s, RealLeq), v) == CountBelow([x] + s, v)
  {
    if s != [] && !RealLeq(x, s[0]) {
      CountsOfInsert(x, s[1..], v);
      CountsOfConcat([s[0]], Insert(x, s[1..], RealLeq), v);
      CountsOfConcat([x], s[1..], v);
      CountsOfConcat([x], s, v);
      CountsOfConcat([s[0]], s[1..], v);
      assert s == [s[0]] + s[1..];
    } else {
      assert Insert(x, s, RealLeq) == [x] + s;
    }
  }

  lemma {:induction false} CountsOfSort(s: seq<real>, v: real)
    ensures CountAtMost(Sort(s, RealLeq), v) == CountAtMost(s, v)
    ensures CountBelow(Sort(s, RealLeq), v) == CountBelow(s, v)
  {
    if s != [] {
      var rest := Sort(s[1..], RealLeq);
      CountsOfSort(s[1..], v);
      CountsOfInsert(s[0], rest, v);
      CountsOfConcat([s[0]], rest, v);
      CountsOfConcat([s[0]], s[1..], v);
      assert s == [s[0]] + s[1..];
    }
  }

  lemma {:induction false} CountsExtreme(s: seq<real>, v: real)
    ensures CountBelow(s, v) <= CountAtMost(s, v) <= |s|
    ensures (forall i :: 0 <= i < |s| ==> s[i] <= v) ==> CountAtMost(s, v) == |s|
    ensures (forall i :: 0 <= i < |s| ==> s[i] >= v) ==> CountBelow(s, v) == 0
  {
    if s != [] {
      CountsExtreme(s[..|s| - 1], v);
    }
  }

  lemma SortedCounts(s: seq<real>, k: nat)
    requires Sorted(s, RealLeq) && k < |s|
    ensures CountAtMost(s, s[k]) >= k + 1
    ensures CountBelow(s, s[k]) <= k
  {
    var v := s[k];
    var low, high := s[..k + 1], s[k..];
    assert s == low + s[k + 1..] && s == s[..k] + high;
    CountsOfConcat(low, s[k + 1..], v);
    CountsOfConcat(s[..k], high, v);
    forall i | 0 <= i < |low|
      ensures low[i] <= v
    {
      assert i == k || RealLeq(s[i], s[k]);
    }
    forall i | 0 <= i < |high|
      ensures high[i] >= v
    {
      assert i == 0 || RealLeq(s[k], s[k + i]);
    }
    CountsExtreme(low, v);
    CountsExtreme(high, v);
    CountsExtreme(s[..k], v);
  }

  // ----- The k-th smallest member -----

  /** `x` is the k-th smallest member, counted from zero and with repetition. */
  ghost predicate IsRanked(values: seq<real>, k: int, x: real) {
    x in values && CountBelow(values, x) <= k < CountAtMost(values, x)
  }

  lemma {:induction false} CountsSeparate(s: seq<real>, x: real, y: real)
    requires x < y
    ensures CountAtMost(s, x) <= CountBelow(s, y)
  {
    if s != [] {
      CountsSeparate(s[..|s| - 1], x, y);
    }
  }

  /** There is only one. */
  lemma RankedUnique(values: seq<real>, k: int, x: real, y: real)
    requires IsRanked(values, k, x) && IsRanked(values, k, y)
    ensures x == y
  {
    if x < y {
      CountsSeparate(values, x, y);
    } else if y < x {
      CountsSeparate(values, y, x);
    }
  }

  /** Sorting puts it at index k. */
  lemma SortedRanked(values: seq<real>, k: nat)
    requires k < |Sort(values, RealLeq)|
    ensures IsRanked(values, k, Sort(values, RealLeq)[k])
  {
    var s := Sort(values, RealLeq);
    RealLeqTotal();
    SortSorts(values, RealLeq);
    SortPermutes(values, RealLeq);
    SortedCounts(s, k);
    CountsOfSort(values, s[k]);
    assert s[k] in s;
  }

  // ----- The value at a level -----

  /** The value a fraction `w` of the way from `x` to `y`. */
  function Lerp(x: real, y: real, w: real): real { x + (y - x) * w }

  lemma MulMonotone(a: real, x: real, y: real)
    requires a >= 0.0 && x <= y
    ensures a * x <= a * y
  {
  }

  lemma LerpMonotone(x: real, y: real, v: real, w: real)
    requires x <= y && v <= w
    ensures Lerp(x, y, v) <= Lerp(x, y, w)
  {
    MulMonotone(y - x, v, w);
  }

  lemma LerpBetween(x: real, y: real, w: real)
    requires x <= y && 0.0 <= w <= 1.0
    ensures x <= Lerp(x, y, w) <= y
  {
    LerpMonotone(x, y, 0.0, w);
    LerpMonotone(x, y, w, 1.0);
  }

  function Neighbour(k: int, n: nat): int { if k + 1 < n then k + 1 else k }

  /** `v` stands at the fractional rank `at`, between `k` and `k + 1`: as far between the members of these
      ranks. */
  ghost predicate AtRank(values: seq<real>, at: real, v: real) {
    forall k: int :: k as real <= at < (k + 1) as real ==> StandsAfter(values, at, k, v)
  }

  ghost predicate StandsAfter(values: seq<real>, at: real, k: int, v: real) {
    exists lo, hi :: RankedAround(values, at, k, v, lo, hi)
  }

  ghost predicate RankedAround(values: seq<real>, at: real, k: int, v: real, lo: real, hi: real) {
    IsRanked(values, k, lo) && IsRanked(values, Neighbour(k, |values|), hi) && v == Lerp(lo, hi, at - k as real)
  }

  lemma RankFound(values: seq<real>, at: real, v: real, lo: real, hi: real)
    requires RankedAround(values, at, at.Floor, v, lo, hi)
    ensures AtRank(values, at, v)
  {
    forall k: int | k as real <= at < (k + 1) as real
      ensures StandsAfter(values, at, k, v)
    {
      assert k == at.Floor;
    }
  }

  lemma RankGives(values: seq<real>, at: real, v: real) returns (lo: real, hi: real)
    requires AtRank(values, at, v)
    ensures RankedAround(values, at, at.Floor, v, lo, hi)
  {
    assert StandsAfter(values, at, at.Floor, v);
    lo, hi :| RankedAround(values, at, at.Floor, v, lo, hi);
  }

  /** The fractional rank of level `q` among `n` members: 0 for level 0, n - 1 for level 1. */
  function LevelRank(q: real, n: nat): real { q * (n - 1) as real }

  /** `v` is the value at level `q`. */
  ghost predicate AtLevel(values: seq<real>, q: real, v: real) { AtRank(values, LevelRank(q, |values|), v) }

  lemma AtRankUnique(values: seq<real>, at: real, v: real, v': real)
    requires AtRank(values, at, v) && AtRank(values, at, v')
    ensures v == v'
  {
    var lo, hi := RankGives(values, at, v);
    var lo', hi' := RankGives(values, at, v');
    RankedUnique(values, at.Floor, lo, lo');
    RankedUnique(values, Neighbour(at.Floor, |values|), hi, hi');
  }

  /** By counting: more members than `at`, rounded down, are at most `v`, and at most that many, rounded
      up, are below it. */
  lemma AtRankCounts(values: seq<real>, at: real, v: real)
    requires AtRank(values, at, v)
    ensures CountAtMost(values, v) > at.Floor && CountBelow(values, v) <= Neighbour(at.Floor, |values|)
  {
    var k := at.Floor;
    var lo, hi := RankGives(values, at, v);
    RanksOrdered(values, k, Neighbour(k, |values|), lo, hi);
    LerpBetween(lo, hi, at - k as real);
    if lo < v {
      CountsSeparate(values, lo, v);
      CountsExtreme(values, v);
    }
    if v < hi {
      CountsSeparate(values, v, hi);
      CountsExtreme(values, v);
    }
  }

  lemma RanksOrdered(values: seq<real>, k: int, k': int, x: real, y: real)
    requires k <= k' && IsRanked(values, k, x) && IsRanked(values, k', y)
    ensures x <= y
  {
    if y < x {
      CountsSeparate(values, y, x);
    }
  }

  // ----- Mirroring -----

  function Negated(s: seq<real>): (r: seq<real>)
    ensures |r| == |s| && forall i :: 0 <= i < |r| ==> r[i] == -s[i]
  {
    seq(|s|, i requires 0 <= i < |s| => -s[i])
  }

  lemma {:induction false} NegatedCounts(s: seq<real>, v: real)
    ensures CountAtMost(Negated(s), -v) == |s| - CountBelow(s, v)
    ensures CountBelow(Negated(s), -v) == |s| - CountAtMost(s, v)
  {
    if s != [] {
      var n := |s| - 1;
      NegatedCounts(s[..n], v);
      assert Negated(s)[..n] == Negated(s[..n]);
    }
  }

  lemma NegatedRanked(s: seq<real>, k: int, x: real)
    requires IsRanked(s, k, x)
    ensures IsRanked(Negated(s), |s| - 1 - k, -x)
  {
    NegatedCounts(s, x);
    var i :| 0 <= i < |s| && s[i] == x;
    assert Negated(s)[i] == -x;
  }

  lemma MirroredLerp(lo: real, hi: real, w: real)
    ensures Lerp(-hi, -lo, 1.0 - w) == -Lerp(lo, hi, w)
  {
    assert (-lo + hi) * (1.0 - w) == (hi - lo) - (hi - lo) * w;
  }

  lemma LerpAtStart(lo: real, hi: real)
    ensures Lerp(lo, hi, 0.0) == lo
  {
  }

  lemma MirroredFloor(at: real, n: nat)
    requires 0.0 <= at <= (n - 1) as real
    ensures var at' := (n - 1) as real - at;
            if at == at.Floor as real then at'.Floor == n - 1 - at.Floor && at' == at'.Floor as real
            else at.Floor + 1 < n && at'.Floor == n - 2 - at.Floor
                 && at' - at'.Floor as real == 1.0 - (at - at.Floor as real)
  {
  }

  lemma NegatedRank(s: seq<real>, at: real, at': real, v: real, v': real)
    requires 0.0 <= at <= (|s| - 1) as real && at' == (|s| - 1) as real - at
    requires AtRank(s, at, v) && AtRank(Negated(s), at', v')
    ensures v' == -v
  {
    var lo, hi := RankGives(s, at, v);
    var lo', hi' := RankGives(Negated(s), at', v');
    MirroredFloor(at, |s|);
    NegatedRanked(s, at.Floor, lo);
    NegatedRanked(s, Neighbour(at.Floor, |s|), hi);
    if at == at.Floor as real {
      RankedUnique(Negated(s), at'.Floor, -lo, lo');
      LerpAtStart(lo, hi);
      LerpAtStart(lo', hi');
    } else {
      RankedUnique(Negated(s), at'.Floor, -hi, lo');
      RankedUnique(Negated(s), Neighbour(at'.Floor, |s|), -lo, hi');
      MirroredLerp(lo, hi, at - at.Floor as real);
    }
  }

  lemma LevelRankBounds(q: real, n: nat)
    requires 0.0 <= q <= 1.0 && n >= 1
    ensures 0.0 <= LevelRank(q, n) <= (n - 1) as real
  {
    var m := (n - 1) as real;
    MulMonotone(m, 0.0, q);
    MulMonotone(m, q, 1.0);
  }

  lemma LevelMirrors(q: real, n: nat)
    ensures LevelRank(1.0 - q, n) == (n - 1) as real - LevelRank(q, n)
  {
    var m := (n - 1) as real;
    assert (1.0 - q) * m == 1.0 * m - q * m;
  }

  /** The value at level 1 - `q` of the negated members is minus the value at level `q`. */
  lemma NegatedLevel(s: seq<real>, q: real, v: real, v': real)
    requires s != [] && 0.0 <= q <= 1.0 && AtLevel(s, q, v) && AtLevel(Negated(s), 1.0 - q, v')
    ensures v' == -v
  {
    LevelRankBounds(q, |s|);
    LevelMirrors(q, |s|);
    NegatedRank(s, LevelRank(q, |s|), LevelRank(1.0 - q, |s|), v, v');
  }
}
