/** Sums, means and sorting of finite sequences: the arithmetic the pipeline rests on. */
module Sequences {

  ghost predicate NoDup<T>(s: seq<T>) {
    forall i, j :: 0 <= i < j < |s| ==> s[i] != s[j]
  }

  // ----- Sums and means over exact reals -----

  function Sum(s: seq<real>): real {
    if s == [] then 0.0 else Sum(s[..|s| - 1]) + s[|s| - 1]
  }

  /** The mean of a series; an empty series has mean zero. */
  function Mean(s: seq<real>): real {
    if s == [] then 0.0 else Sum(s) / |s| as real
  }

  lemma SumSnoc(s: seq<real>, x: real)
    ensures Sum(s + [x]) == Sum(s) + x
  {
    assert (s + [x])[..|s|] == s;
  }

  lemma {:induction false} SumConcat(a: seq<real>, b: seq<real>)
    ensures Sum(a + b) == Sum(a) + Sum(b)
    decreases |b|
  {
    if b == [] {
      assert a + b == a;
    } else {
      var b' := b[..|b| - 1];
      SumConcat(a, b');
      assert (a + b)[..|a + b| - 1] == a + b';
    }
  }

  function RemoveAt<T>(s: seq<T>, j: nat): seq<T>
    requires j < |s|
  {
    s[..j] + s[j + 1..]
  }

  lemma {:induction false} SumRemoveAt(s: seq<real>, j: nat)
    requires j < |s|
    ensures Sum(s) == Sum(RemoveAt(s, j)) + s[j]
  {
    SumConcat(s[..j], [s[j]] + s[j + 1..]);
    SumConcat([s[j]], s[j + 1..]);
    SumConcat(s[..j], s[j + 1..]);
    SumSnoc([], s[j]);
    assert [] + [s[j]] == [s[j]];
    assert s == s[..j] + ([s[j]] + s[j + 1..]);
  }

  lemma NoDupRemoveAt<T>(s: seq<T>, j: nat)
    requires NoDup(s) && j < |s|
    ensures NoDup(RemoveAt(s, j))
    ensures forall x :: x in RemoveAt(s, j) <==> x in s && x != s[j]
  {
    var r := RemoveAt(s, j);
    forall x
      ensures x in r <==> x in s && x != s[j]
    {
      if x in s && x != s[j] {
        var i :| 0 <= i < |s| && s[i] == x;
        assert x == if i < j then r[i] else r[i - 1];
      }
      if x in r {
        var i :| 0 <= i < |r| && r[i] == x;
        assert x == if i < j then s[i] else s[i + 1];
      }
    }
  }

  lemma SplitAt<T>(s: seq<T>, j: nat)
    requires j < |s|
    ensures s == (s[..j] + [s[j]]) + s[j + 1..]
    ensures multiset(s) == multiset(RemoveAt(s, j)) + multiset{s[j]}
  {
    assert s == (s[..j] + [s[j]]) + s[j + 1..];
  }

  /** Equal multisets stay equal when one occurrence of the same element is removed from each. */
  lemma RemoveSame<T>(a: seq<T>, i: nat, b: seq<T>, j: nat)
    requires multiset(a) == multiset(b) && i < |a| && j < |b| && a[i] == b[j]
    ensures multiset(RemoveAt(a, i)) == multiset(RemoveAt(b, j))
  {
    SplitAt(a, i);
    SplitAt(b, j);
    assert multiset(RemoveAt(a, i)) == multiset(a) - multiset{a[i]};
    assert multiset(RemoveAt(b, j)) == multiset(b) - multiset{b[j]};
  }

  lemma HasMember<T>(s: seq<T>)
    requires s != []
    ensures exists x :: x in s
  {
    assert s[0] in s;
  }

  /** Two enumerations of the same keys, each key carrying one value: the values have the same
      sum, whatever the orders of enumeration. */
  lemma {:induction false} SumByKeys<K>(ks: seq<K>, vs: seq<real>, ks': seq<K>, vs': seq<real>)
    requires |ks| == |vs| && |ks'| == |vs'|
    requires NoDup(ks) && NoDup(ks')
    requires forall k :: k in ks <==> k in ks'
    requires forall i, j :: 0 <= i < |ks| && 0 <= j < |ks'| && ks[i] == ks'[j] ==> vs[i] == vs'[j]
    ensures |vs| == |vs'| && Sum(vs) == Sum(vs')
    decreases |ks|
  {
    if ks == [] {
      if ks' != [] {
        HasMember(ks');
      }
    } else {
      var n := |ks| - 1;
      assert ks[n] in ks';
      var j :| 0 <= j < |ks'| && ks'[j] == ks[n];
      NoDupRemoveAt(ks, n);
      NoDupRemoveAt(ks', j);
      assert RemoveAt(ks, n) == ks[..n] && RemoveAt(vs, n) == vs[..n];
      SumByKeys(ks[..n], vs[..n], RemoveAt(ks', j), RemoveAt(vs', j));
      SumRemoveAt(vs', j);
    }
  }

  lemma {:induction false} SumBounds(s: seq<real>, lo: real, hi: real)
    requires forall i :: 0 <= i < |s| ==> lo <= s[i] <= hi
    ensures |s| as real * lo <= Sum(s) <= |s| as real * hi
  {
    if s != [] {
      SumBounds(s[..|s| - 1], lo, hi);
      var n := |s| as real;
      assert (n - 1.0) * lo + lo == n * lo;
      assert (n - 1.0) * hi + hi == n * hi;
    }
  }

  lemma DivideBounds(total: real, n: real, lo: real, hi: real)
    requires n > 0.0 && n * lo <= total <= n * hi
    ensures lo <= total / n <= hi
  {
    var q := total / n;
    assert q * n == total;
    assert q < lo ==> q * n < lo * n;
    assert q > hi ==> q * n > hi * n;
  }

  lemma MeanBounds(s: seq<real>, lo: real, hi: real)
    requires s != []
    requires forall i :: 0 <= i < |s| ==> lo <= s[i] <= hi
    ensures lo <= Mean(s) <= hi
  {
    SumBounds(s, lo, hi);
    DivideBounds(Sum(s), |s| as real, lo, hi);
  }

  lemma {:induction false} SumNonNegative(s: seq<real>)
    requires forall i :: 0 <= i < |s| ==> s[i] >= 0.0
    ensures Sum(s) >= 0.0
    ensures Mean(s) >= 0.0
  {
    if s != [] {
      SumNonNegative(s[..|s| - 1]);
      assert Sum(s) / |s| as real >= 0.0;
    }
  }

  /** Elementwise difference of two aligned series. */
  function Diffs(baseline: seq<real>, candidate: seq<real>): (d: seq<real>)
    requires |baseline| == |candidate|
    ensures |d| == |baseline|
    ensures forall i :: 0 <= i < |d| ==> d[i] == candidate[i] - baseline[i]
  {
    seq(|baseline|, i requires 0 <= i < |baseline| => candidate[i] - baseline[i])
  }

  lemma {:induction false} SumDiffs(b: seq<real>, c: seq<real>)
    requires |b| == |c|
    ensures Sum(Diffs(b, c)) == Sum(c) - Sum(b)
  {
    if b != [] {
      var n := |b| - 1;
      SumDiffs(b[..n], c[..n]);
      assert Diffs(b, c)[..n] == Diffs(b[..n], c[..n]);
    }
  }

  /** The mean of paired differences is the difference of the means. */
  lemma MeanDiffs(b: seq<real>, c: seq<real>)
    requires |b| == |c|
    ensures Mean(Diffs(b, c)) == Mean(c) - Mean(b)
  {
    SumDiffs(b, c);
    if b != [] {
      var n := |b| as real;
      assert (Sum(c) - Sum(b)) / n == Sum(c) / n - Sum(b) / n;
    }
  }

  function Times(k: real, x: real): real { k * x }

  /** The same series in a unit `k` times smaller. */
  function Scale(k: real, s: seq<real>): (r: seq<real>)
    ensures |r| == |s|
    ensures forall i :: 0 <= i < |s| ==> r[i] == Times(k, s[i])
  {
    seq(|s|, i requires 0 <= i < |s| => Times(k, s[i]))
  }

  lemma ScaleSlice(k: real, s: seq<real>, i: nat, j: nat)
    requires i <= j <= |s|
    ensures Scale(k, s)[i..j] == Scale(k, s[i..j])
  {
    forall m | 0 <= m < j - i
      ensures Scale(k, s)[i..j][m] == Scale(k, s[i..j])[m]
    {
      assert s[i..j][m] == s[i + m];
    }
  }

  lemma {:induction false} SumScale(k: real, s: seq<real>)
    ensures Sum(Scale(k, s)) == Times(k, Sum(s))
  {
    if s != [] {
      var n := |s| - 1;
      SumScale(k, s[..n]);
      ScaleSlice(k, s, 0, n);
      assert Scale(k, s)[..n] == Scale(k, s)[0..n] && s[..n] == s[0..n];
      Distribute(k, Sum(s[..n]), s[n]);
    }
  }

  lemma Distribute(k: real, x: real, y: real)
    ensures Times(k, x) + Times(k, y) == Times(k, x + y)
  {
  }

  lemma MeanScale(k: real, s: seq<real>)
    ensures Mean(Scale(k, s)) == Times(k, Mean(s))
  {
    SumScale(k, s);
    if s != [] {
      ScaleQuotient(k, Sum(s), |s| as real);
    }
  }

  lemma ScaleQuotient(k: real, x: real, n: real)
    requires n != 0.0
    ensures Times(k, x) / n == Times(k, x / n)
  {
  }

  // ----- Stable sorting by a total preorder -----

  ghost predicate TotalPreorder<T(!new)>(leq: (T, T) -> bool) {
    && (forall x, y :: leq(x, y) || leq(y, x))
    && (forall x, y, z :: leq(x, y) && leq(y, z) ==> leq(x, z))
  }

  ghost predicate Sorted<T>(s: seq<T>, leq: (T, T) -> bool) {
    forall i, j :: 0 <= i < j < |s| ==> leq(s[i], s[j])
  }

  function Insert<T>(x: T, s: seq<T>, leq: (T, T) -> bool): seq<T> {
    if s == [] then [x]
    else if leq(x, s[0]) then [x] + s
    else [s[0]] + Insert(x, s[1..], leq)
  }

  /** Python's `sorted`: stable, ascending in `leq`. */
  function Sort<T>(s: seq<T>, leq: (T, T) -> bool): seq<T> {
    if s == [] then [] else Insert(s[0], Sort(s[1..], leq), leq)
  }

  lemma {:induction false} InsertPermutes<T>(x: T, s: seq<T>, leq: (T, T) -> bool)
    ensures multiset(Insert(x, s, leq)) == multiset(s) + multiset{x}
  {
    if s != [] && !leq(x, s[0]) {
      InsertPermutes(x, s[1..], leq);
      assert s == [s[0]] + s[1..];
    }
  }

  lemma {:induction false} SortPermutes<T>(s: seq<T>, leq: (T, T) -> bool)
    ensures multiset(Sort(s, leq)) == multiset(s)
    ensures |Sort(s, leq)| == |s|
    ensures forall x :: x in Sort(s, leq) <==> x in s
  {
    if s != [] {
      SortPermutes(s[1..], leq);
      InsertPermutes(s[0], Sort(s[1..], leq), leq);
      assert s == [s[0]] + s[1..];
    }
    SameMultisetSameLength(Sort(s, leq), s);
  }

  lemma SameMultisetSameLength<T>(a: seq<T>, b: seq<T>)
    requires multiset(a) == multiset(b)
    ensures |a| == |b|
    ensures forall x :: x in a <==> x in b
  {
    assert |multiset(a)| == |multiset(b)|;
    forall x
      ensures x in a <==> x in b
    {
      assert x in a <==> x in multiset(a);
    }
  }

  lemma {:induction false} InsertSorted<T(!new)>(x: T, s: seq<T>, leq: (T, T) -> bool)
    requires TotalPreorder(leq) && Sorted(s, leq)
    ensures Sorted(Insert(x, s, leq), leq)
  {
    if s != [] && !leq(x, s[0]) {
      var t := Insert(x, s[1..], leq);
      InsertSorted(x, s[1..], leq);
      InsertPermutes(x, s[1..], leq);
      forall y | y in t
        ensures leq(s[0], y)
      {
        assert y in multiset(t);
        if y != x {
          assert y in s[1..];
        }
      }
    }
  }

  lemma {:induction false} SortSorts<T(!new)>(s: seq<T>, leq: (T, T) -> bool)
    requires TotalPreorder(leq)
    ensures Sorted(Sort(s, leq), leq)
  {
    if s != [] {
      SortSorts(s[1..], leq);
      InsertSorted(s[0], Sort(s[1..], leq), leq);
    }
  }

  lemma SameFirst<T>(a: seq<T>, b: seq<T>, leq: (T, T) -> bool)
    requires multiset(a) == multiset(b) && a != [] && b != []
    requires Sorted(a, leq) && Sorted(b, leq)
    requires Antisymmetric(a, leq)
    ensures a[0] == b[0]
  {
    SameMultisetSameLength(a, b);
    assert a[0] in b && b[0] in a;
    var i :| 0 <= i < |b| && b[i] == a[0];
    var j :| 0 <= j < |a| && a[j] == b[0];
    assert i == 0 || leq(b[0], b[i]);
    assert j == 0 || leq(a[0], a[j]);
  }

  ghost predicate Antisymmetric<T>(s: seq<T>, leq: (T, T) -> bool) {
    forall x, y :: x in s && y in s && leq(x, y) && leq(y, x) ==> x == y
  }

  lemma TailMultiset<T>(a: seq<T>)
    requires a != []
    ensures multiset(a[1..]) == multiset(a) - multiset{a[0]}
  {
    assert a == [a[0]] + a[1..];
  }

  lemma TailSorted<T>(a: seq<T>, leq: (T, T) -> bool)
    requires a != [] && Sorted(a, leq) && Antisymmetric(a, leq)
    ensures Sorted(a[1..], leq) && Antisymmetric(a[1..], leq)
  {
    assert forall x :: x in a[1..] ==> x in a;
  }

  lemma SameTails<T>(a: seq<T>, b: seq<T>, leq: (T, T) -> bool)
    requires multiset(a) == multiset(b) && a != [] && b != [] && a[0] == b[0]
    requires Sorted(a, leq) && Sorted(b, leq) && Antisymmetric(a, leq)
    ensures multiset(a[1..]) == multiset(b[1..])
    ensures Sorted(a[1..], leq) && Sorted(b[1..], leq) && Antisymmetric(a[1..], leq)
  {
    TailMultiset(a);
    TailMultiset(b);
    TailSorted(a, leq);
  }

  /** A sorted arrangement is unique when no two different members are order-equivalent. */
  lemma {:induction false} SortedUnique<T>(a: seq<T>, b: seq<T>, leq: (T, T) -> bool)
    requires multiset(a) == multiset(b)
    requires Sorted(a, leq) && Sorted(b, leq)
    requires Antisymmetric(a, leq)
    ensures a == b
  {
    SameMultisetSameLength(a, b);
    if a != [] {
      SameFirst(a, b, leq);
      SameTails(a, b, leq);
      SortedUnique(a[1..], b[1..], leq);
      assert a == [a[0]] + a[1..] && b == [b[0]] + b[1..];
    }
  }

  /** Sorting forgets the order of its input when order-equivalent members are equal. */
  lemma SortForgetsOrder<T(!new)>(a: seq<T>, b: seq<T>, leq: (T, T) -> bool)
    requires TotalPreorder(leq) && multiset(a) == multiset(b)
    requires Antisymmetric(a, leq)
    ensures Sort(a, leq) == Sort(b, leq)
  {
    SortPermutes(a, leq);
    SortPermutes(b, leq);
    SortSorts(a, leq);
    SortSorts(b, leq);
    SortedUnique(Sort(a, leq), Sort(b, leq), leq);
  }

  lemma MultisetNoDup<T>(a: seq<T>, b: seq<T>)
    requires NoDup(a) && NoDup(b)
    requires forall x :: x in a <==> x in b
    ensures multiset(a) == multiset(b)
  {
    forall x
      ensures multiset(a)[x] == multiset(b)[x]
    {
      CountNoDup(a, x);
      CountNoDup(b, x);
    }
  }

  lemma {:induction false} CountNoDup<T>(a: seq<T>, x: T)
    requires NoDup(a)
    ensures multiset(a)[x] == if x in a then 1 else 0
  {
    if a != [] {
      CountNoDup(a[1..], x);
      assert a == [a[0]] + a[1..];
    }
  }

  lemma {:induction false} NoDupFromMultiset<T>(a: seq<T>, b: seq<T>)
    requires NoDup(a) && multiset(a) == multiset(b)
    ensures NoDup(b)
  {
    forall i, j | 0 <= i < j < |b|
      ensures b[i] != b[j]
    {
      if b[i] == b[j] {
        assert b == b[..i] + [b[i]] + b[i + 1..j] + [b[j]] + b[j + 1..];
        assert multiset(b)[b[i]] >= 2;
        CountNoDup(a, b[i]);
      }
    }
  }

  // ----- Sorted enumerations of sets -----

  ghost predicate TotalOrder<T(!new)>(leq: (T, T) -> bool) {
    TotalPreorder(leq) && forall x, y :: leq(x, y) && leq(y, x) ==> x == y
  }

  ghost predicate Enumerates<T(!new)>(r: seq<T>, s: set<T>) {
    NoDup(r) && |r| == |s| && forall x :: x in r <==> x in s
  }

  lemma {:induction false} EnumerateSet<T(!new)>(s: set<T>) returns (r: seq<T>)
    ensures Enumerates(r, s)
  {
    if s == {} {
      r := [];
    } else {
      var x :| x in s;
      var rest := EnumerateSet(s - {x});
      r := [x] + rest;
    }
  }

  /** What Python's `sorted` makes of a set: its members in ascending order. */
  ghost function InOrder<T(!new)>(s: set<T>, leq: (T, T) -> bool): (r: seq<T>)
    requires TotalOrder(leq)
    ensures Enumerates(r, s) && Sorted(r, leq)
  {
    InOrderExists(s, leq);
    var r :| Enumerates(r, s) && Sorted(r, leq);
    r
  }

  lemma SortEnumeration<T(!new)>(e: seq<T>, s: set<T>, leq: (T, T) -> bool)
    requires TotalOrder(leq) && Enumerates(e, s)
    ensures Enumerates(Sort(e, leq), s) && Sorted(Sort(e, leq), leq)
  {
    SortSorts(e, leq);
    SortPermutes(e, leq);
    NoDupFromMultiset(e, Sort(e, leq));
  }

  lemma InOrderExists<T(!new)>(s: set<T>, leq: (T, T) -> bool)
    requires TotalOrder(leq)
    ensures exists r: seq<T> :: Enumerates(r, s) && Sorted(r, leq)
  {
    var e := EnumerateSet(s);
    SortEnumeration(e, s, leq);
  }

  lemma InOrderUnique<T(!new)>(r: seq<T>, s: set<T>, leq: (T, T) -> bool)
    requires TotalOrder(leq) && Enumerates(r, s) && Sorted(r, leq)
    ensures r == InOrder(s, leq)
  {
    MultisetNoDup(r, InOrder(s, leq));
    SortedUnique(r, InOrder(s, leq), leq);
  }

  /** Sorting a set, in whatever order the set is enumerated. */
  method SortSet<T(==, !new)>(s: set<T>, leq: (T, T) -> bool) returns (r: seq<T>)
    requires TotalOrder(leq)
    ensures r == InOrder(s, leq)
  {
    var left, listed: seq<T> := s, [];
    while left != {}
      invariant left <= s && NoDup(listed) && |listed| + |left| == |s|
      invariant forall x :: x in listed <==> x in s && x !in left
      decreases left
    {
      var x :| x in left;
      left, listed := left - {x}, listed + [x];
    }
    r := Sort(listed, leq);
    SortEnumeration(listed, s, leq);
    InOrderUnique(r, s, leq);
  }

  // ----- Sorting reals -----

  predicate RealLeq(x: real, y: real) { x <= y }

  lemma RealLeqTotal()
    ensures TotalPreorder(RealLeq)
  {
  }

  lemma ScaleCons(k: real, x: real, s: seq<real>)
    ensures Scale(k, [x] + s) == [Times(k, x)] + Scale(k, s)
  {
    forall m | 0 <= m < |s| + 1
      ensures Scale(k, [x] + s)[m] == ([Times(k, x)] + Scale(k, s))[m]
    {
      assert ([x] + s)[m] == if m == 0 then x else s[m - 1];
    }
  }

  lemma ScaleOrder(k: real, x: real, y: real)
    requires k > 0.0
    ensures Times(k, x) <= Times(k, y) <==> x <= y
  {
    assert x < y ==> k * x < k * y;
    assert y < x ==> k * y < k * x;
  }

  lemma {:induction false} InsertScale(k: real, x: real, kx: real, s: seq<real>)
    requires k > 0.0 && kx == Times(k, x)
    ensures Insert(kx, Scale(k, s), RealLeq) == Scale(k, Insert(x, s, RealLeq))
  {
    ScaleCons(k, x, s);
    if s == [] {
      assert [x] + s == [x] && [kx] + Scale(k, s) == [kx];
    } else {
      var h, t, s' := s[0], s[1..], Scale(k, s);
      assert s == [h] + t;
      ScaleCons(k, h, t);
      ScaleOrder(k, x, h);
      InsertScale(k, x, kx, t);
      ScaleCons(k, h, Insert(x, t, RealLeq));
      assert s'[1..] == Scale(k, t);
      assert RealLeq(kx, s'[0]) <==> RealLeq(x, h);
    }
  }

  lemma {:induction false} SortScale(k: real, s: seq<real>)
    requires k > 0.0
    ensures Sort(Scale(k, s), RealLeq) == Scale(k, Sort(s, RealLeq))
  {
    if s != [] {
      var h, t := s[0], s[1..];
      assert s == [h] + t;
      ScaleCons(k, h, t);
      SortScale(k, t);
      assert Scale(k, s)[1..] == Scale(k, t);
      InsertScale(k, h, Scale(k, s)[0], Sort(t, RealLeq));
    }
  }
}
