/** The orders Python sorts by: code-point order on strings, and (case id, repeat) keys. */
module Ordering {
  import opened Sequences

  predicate StrLeq(a: string, b: string) {
    a == [] || (b != [] && (a[0] < b[0] || (a[0] == b[0] && StrLeq(a[1..], b[1..]))))
  }

  lemma {:induction false} StrTotal(a: string, b: string)
    ensures StrLeq(a, b) || StrLeq(b, a)
    ensures StrLeq(a, b) && StrLeq(b, a) ==> a == b
  {
    if a != [] && b != [] {
      StrTotal(a[1..], b[1..]);
      assert a == [a[0]] + a[1..] && b == [b[0]] + b[1..];
    }
  }

  lemma {:induction false} StrTransitive(a: string, b: string, c: string)
    requires StrLeq(a, b) && StrLeq(b, c)
    ensures StrLeq(a, c)
  {
    if a != [] && a[0] == b[0] == c[0] {
      StrTransitive(a[1..], b[1..], c[1..]);
    }
  }

  lemma StrOrder()
    ensures TotalOrder(StrLeq)
  {
    forall a, b
      ensures StrLeq(a, b) || StrLeq(b, a)
      ensures StrLeq(a, b) && StrLeq(b, a) ==> a == b
    {
      StrTotal(a, b);
    }
    forall a, b, c | StrLeq(a, b) && StrLeq(b, c)
      ensures StrLeq(a, c)
    {
      StrTransitive(a, b, c);
    }
  }

  /** What identifies a run within one version of an experiment. */
  datatype PairKey = PairKey(caseId: string, repeatIndex: nat)

  /** Lexicographic tuple order on (case id, repeat index). */
  predicate KeyLeq(a: PairKey, b: PairKey) {
    if a.caseId == b.caseId then a.repeatIndex <= b.repeatIndex else StrLeq(a.caseId, b.caseId)
  }

  lemma KeyOrder()
    ensures TotalOrder(KeyLeq)
  {
    StrOrder();
  }

  /** A set of keys in ascending order. */
  ghost function KeysInOrder(s: set<PairKey>): (r: seq<PairKey>)
    ensures NoDup(r) && |r| == |s| && forall k :: k in r <==> k in s
  {
    KeyOrder();
    InOrder(s, KeyLeq)
  }

  /** A set of names in ascending order. */
  ghost function NamesInOrder(s: set<string>): (r: seq<string>)
    ensures NoDup(r) && |r| == |s| && (forall n :: n in r <==> n in s) && Sorted(r, StrLeq)
  {
    StrOrder();
    InOrder(s, StrLeq)
  }
}
