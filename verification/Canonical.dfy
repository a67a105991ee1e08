/** Order-independent canonical form of tool arguments, and exactly which differences it erases. */
module Canonical {
  import opened Sequences
  import opened Ordering
  import opened Domain

  /** Python's hashable image of a value; `True == 1`, so booleans become numbers. */
  datatype Canon =
    | CNone
    | CNumber(number: real)
    | CText(text: string)
    | CTuple(items: seq<Canon>)

  /** One (key, canonical value) pair of a mapping. */
  datatype Item = Item(key: string, value: Canon)

  predicate ItemLeq(a: Item, b: Item) { StrLeq(a.key, b.key) }

  function PairTuple(i: Item): Canon { CTuple([CText(i.key), i.value]) }

  function PairTuples(items: seq<Item>): (r: seq<Canon>)
    ensures |r| == |items|
    ensures forall k :: 0 <= k < |r| ==> r[k] == PairTuple(items[k])
  {
    seq(|items|, k requires 0 <= k < |items| => PairTuple(items[k]))
  }

  /** Mapping: key-sorted tuple of pairs; sequence: tuple; scalar: itself. */
  function CanonicalForm(v: Value): Canon {
    match v
    case Null => CNone
    case Bool(b) => CNumber(if b then 1.0 else 0.0)
    case Number(n) => CNumber(n)
    case Text(t) => CText(t)
    case List(items) =>
      CTuple(seq(|items|, i requires 0 <= i < |items| => CanonicalForm(items[i])))
    case Mapping(entries) =>
      var items := seq(|entries|, i requires 0 <= i < |entries| =>
        Item(entries[i].key, CanonicalForm(entries[i].value)));
      CTuple(PairTuples(Sort(items, ItemLeq)))
  }

  /** The pairs of a mapping before sorting. */
  function Items(entries: seq<Entry>): (r: seq<Item>)
    ensures |r| == |entries|
    ensures forall i :: 0 <= i < |r| ==> r[i] == Item(entries[i].key, CanonicalForm(entries[i].value))
  {
    seq(|entries|, i requires 0 <= i < |entries| => Item(entries[i].key, CanonicalForm(entries[i].value)))
  }

  lemma CanonicalMapping(entries: seq<Entry>)
    ensures CanonicalForm(Mapping(entries)) == CTuple(PairTuples(Sort(Items(entries), ItemLeq)))
  {
    var items := seq(|entries|, i requires 0 <= i < |entries| =>
      Item(entries[i].key, CanonicalForm(entries[i].value)));
    assert items == Items(entries);
  }

  // ----- Structural notions, independent of the canonical form -----

  ghost predicate DistinctKeys(entries: seq<Entry>) {
    forall i, j :: 0 <= i < j < |entries| ==> entries[i].key != entries[j].key
  }

  /** What holding mappings as dictionaries guarantees: distinct keys at every depth. */
  ghost predicate WellFormed(v: Value) {
    match v
    case List(items) => forall i :: 0 <= i < |items| ==> WellFormed(items[i])
    case Mapping(entries) =>
      DistinctKeys(entries) && forall i :: 0 <= i < |entries| ==> WellFormed(entries[i].value)
    case _ => true
  }

  /** Python's `==` on scalars. */
  predicate ScalarEqual(v: Value, w: Value) {
    match (v, w)
    case (Null, Null) => true
    case (Bool(a), Bool(b)) => a == b
    case (Number(a), Number(b)) => a == b
    case (Bool(a), Number(b)) => b == if a then 1.0 else 0.0
    case (Number(a), Bool(b)) => a == if b then 1.0 else 0.0
    case (Text(a), Text(b)) => a == b
    case _ => false
  }

  /** The same structure: lists agree position by position, mappings key by key in any key order. */
  ghost predicate Equivalent(v: Value, w: Value) {
    match (v, w)
    case (List(xs), List(ys)) =>
      |xs| == |ys| && forall i :: 0 <= i < |xs| ==> Equivalent(xs[i], ys[i])
    case (Mapping(es), Mapping(fs)) =>
      && |es| == |fs|
      && forall i :: 0 <= i < |es| ==>
        exists j :: 0 <= j < |fs| && es[i].key == fs[j].key && Equivalent(es[i].value, fs[j].value)
    case _ => ScalarEqual(v, w)
  }

  /** No list faces a mapping at corresponding places. */
  ghost predicate SameShape(v: Value, w: Value) {
    match (v, w)
    case (List(xs), List(ys)) =>
      forall i :: 0 <= i < |xs| && i < |ys| ==> SameShape(xs[i], ys[i])
    case (Mapping(es), Mapping(fs)) =>
      forall i, j :: 0 <= i < |es| && 0 <= j < |fs| && es[i].key == fs[j].key ==>
        SameShape(es[i].value, fs[j].value)
    case (List(_), Mapping(_)) => false
    case (Mapping(_), List(_)) => false
    case _ => true
  }

  // ----- Equivalent structures have equal canonical forms -----

  lemma ItemsNoDup(entries: seq<Entry>)
    requires DistinctKeys(entries)
    ensures NoDup(Items(entries))
    ensures forall x, y :: x in Items(entries) && y in Items(entries) && ItemLeq(x, y) && ItemLeq(y, x) ==> x == y
  {
    StrOrder();
  }

  lemma ItemOrder()
    ensures TotalPreorder(ItemLeq)
  {
    StrOrder();
  }

  lemma {:induction false} NoDupCovers<T(!new)>(a: seq<T>, b: seq<T>)
    requires NoDup(a) && NoDup(b) && |a| == |b|
    requires forall x :: x in a ==> x in b
    ensures forall x :: x in b ==> x in a
  {
    if a != [] {
      assert a[0] in b;
      var j :| 0 <= j < |b| && b[j] == a[0];
      NoDupRemoveAt(a, 0);
      NoDupRemoveAt(b, j);
      NoDupCovers(RemoveAt(a, 0), RemoveAt(b, j));
    }
  }

  lemma {:induction false} EquivalentSameForm(v: Value, w: Value)
    requires WellFormed(v) && WellFormed(w) && Equivalent(v, w)
    ensures CanonicalForm(v) == CanonicalForm(w)
  {
    match (v, w)
    case (List(xs), List(ys)) =>
      forall i | 0 <= i < |xs|
        ensures CanonicalForm(xs[i]) == CanonicalForm(ys[i])
      {
        EquivalentSameForm(xs[i], ys[i]);
      }
    case (Mapping(es), Mapping(fs)) =>
      var a, b := Items(es), Items(fs);
      forall x | x in a
        ensures x in b
      {
        var i :| 0 <= i < |a| && a[i] == x;
        var j :| 0 <= j < |fs| && es[i].key == fs[j].key && Equivalent(es[i].value, fs[j].value);
        EquivalentSameForm(es[i].value, fs[j].value);
        assert b[j] == x;
      }
      ItemsNoDup(es);
      ItemsNoDup(fs);
      NoDupCovers(a, b);
      MultisetNoDup(a, b);
      ItemOrder();
      SortForgetsOrder(a, b, ItemLeq);
      CanonicalMapping(es);
      CanonicalMapping(fs);
    case _ =>
  }

  // ----- Equal canonical forms of same-shaped structures come from equivalent structures -----

  lemma PairTuplesInjective(a: seq<Item>, b: seq<Item>)
    requires PairTuples(a) == PairTuples(b)
    ensures a == b
  {
    assert |a| == |b|;
    forall k | 0 <= k < |a|
      ensures a[k] == b[k]
    {
      assert PairTuples(a)[k] == PairTuples(b)[k];
      assert PairTuple(a[k]).items[0] == PairTuple(b[k]).items[0];
      assert PairTuple(a[k]).items[1] == PairTuple(b[k]).items[1];
    }
  }

  /** Mappings with equal forms have the same pairs. */
  lemma MappingFormsAgree(es: seq<Entry>, fs: seq<Entry>)
    requires CanonicalForm(Mapping(es)) == CanonicalForm(Mapping(fs))
    ensures |es| == |fs|
    ensures forall i :: 0 <= i < |es| ==>
              exists j :: 0 <= j < |fs| && es[i].key == fs[j].key
                          && CanonicalForm(es[i].value) == CanonicalForm(fs[j].value)
  {
    CanonicalMapping(es);
    CanonicalMapping(fs);
    var a, b := Items(es), Items(fs);
    PairTuplesInjective(Sort(a, ItemLeq), Sort(b, ItemLeq));
    SortPermutes(a, ItemLeq);
    SortPermutes(b, ItemLeq);
    forall i | 0 <= i < |es|
      ensures exists j :: 0 <= j < |fs| && es[i].key == fs[j].key
                          && CanonicalForm(es[i].value) == CanonicalForm(fs[j].value)
    {
      assert a[i] in Sort(a, ItemLeq);
      assert a[i] in b;
      var j :| 0 <= j < |b| && b[j] == a[i];
      assert es[i].key == fs[j].key;
    }
  }

  lemma ListFormsAgree(xs: seq<Value>, ys: seq<Value>)
    requires CanonicalForm(List(xs)) == CanonicalForm(List(ys))
    ensures |xs| == |ys|
    ensures forall i :: 0 <= i < |xs| ==> CanonicalForm(xs[i]) == CanonicalForm(ys[i])
  {
    var f, g := CanonicalForm(List(xs)).items, CanonicalForm(List(ys)).items;
    assert |f| == |xs| && |g| == |ys|;
    assert forall i :: 0 <= i < |xs| ==> f[i] == CanonicalForm(xs[i]);
    assert forall i :: 0 <= i < |ys| ==> g[i] == CanonicalForm(ys[i]);
  }

  lemma {:induction false} SameFormEquivalent(v: Value, w: Value)
    requires CanonicalForm(v) == CanonicalForm(w) && SameShape(v, w)
    ensures Equivalent(v, w)
  {
    match (v, w)
    case (List(xs), List(ys)) =>
      ListFormsAgree(xs, ys);
      forall i | 0 <= i < |xs|
        ensures Equivalent(xs[i], ys[i])
      {
        SameFormEquivalent(xs[i], ys[i]);
      }
    case (Mapping(es), Mapping(fs)) =>
      MappingFormsAgree(es, fs);
      forall i | 0 <= i < |es|
        ensures exists j :: 0 <= j < |fs| && es[i].key == fs[j].key && Equivalent(es[i].value, fs[j].value)
      {
        var j :| 0 <= j < |fs| && es[i].key == fs[j].key
                 && CanonicalForm(es[i].value) == CanonicalForm(fs[j].value);
        SameFormEquivalent(es[i].value, fs[j].value);
      }
    case _ =>
  }

  lemma {:induction false} EquivalentSameShape(v: Value, w: Value)
    requires WellFormed(v) && WellFormed(w) && Equivalent(v, w)
    ensures SameShape(v, w)
  {
    match (v, w)
    case (List(xs), List(ys)) =>
      forall i | 0 <= i < |xs|
        ensures SameShape(xs[i], ys[i])
      {
        EquivalentSameShape(xs[i], ys[i]);
      }
    case (Mapping(es), Mapping(fs)) =>
      forall i, j | 0 <= i < |es| && 0 <= j < |fs| && es[i].key == fs[j].key
        ensures SameShape(es[i].value, fs[j].value)
      {
        var j' :| 0 <= j' < |fs| && es[i].key == fs[j'].key && Equivalent(es[i].value, fs[j'].value);
        assert j' == j;
        EquivalentSameShape(es[i].value, fs[j].value);
      }
    case _ =>
  }

  /** The canonical form ignores key order at every depth, and it separates different structures
      exactly when no list faces a mapping: two values with equal forms have the same structure
      if and only if their shapes agree. */
  lemma CanonicalFormIsStructural(v: Value, w: Value)
    requires WellFormed(v) && WellFormed(w)
    ensures Equivalent(v, w) ==> CanonicalForm(v) == CanonicalForm(w)
    ensures CanonicalForm(v) == CanonicalForm(w) ==> (Equivalent(v, w) <==> SameShape(v, w))
    ensures SameShape(v, w) ==> (CanonicalForm(v) == CanonicalForm(w) <==> Equivalent(v, w))
  {
    if Equivalent(v, w) {
      EquivalentSameForm(v, w);
      EquivalentSameShape(v, w);
    }
    if CanonicalForm(v) == CanonicalForm(w) && SameShape(v, w) {
      SameFormEquivalent(v, w);
    }
  }

  /** Shapes do matter: a one-entry mapping and a list of one pair collide. */
  lemma MappingCollidesWithPairList(k: string, n: real)
    ensures CanonicalForm(Mapping([Entry(k, Number(n))])) == CanonicalForm(List([List([Text(k), Number(n)])]))
    ensures !Equivalent(Mapping([Entry(k, Number(n))]), List([List([Text(k), Number(n)])]))
  {
    var m, pair := Mapping([Entry(k, Number(n))]), List([Text(k), Number(n)]);
    CanonicalMapping(m.entries);
    var it := Item(k, CNumber(n));
    assert Items(m.entries) == [it];
    assert Sort([it], ItemLeq) == [it] by {
      assert Sort([it][1..], ItemLeq) == [];
    }
    assert CanonicalForm(pair).items == [CText(k), CNumber(n)];
    assert CanonicalForm(List([pair])).items == [PairTuple(it)];
    assert PairTuples([it]) == [PairTuple(it)];
  }
}
