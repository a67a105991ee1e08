/** The tool-trajectory evaluator: a sequence Dice coefficient over a rolling-row LCS. */
module Trajectory {
  import opened Basics
  import opened Domain

  // ----- What a longest common subsequence is -----

  /** `at` lists, in increasing order, positions of `s` that spell out `c`. */
  ghost predicate Embeds<T>(c: seq<T>, s: seq<T>, at: seq<nat>) {
    && |at| == |c|
    && (forall i :: 0 <= i < |c| ==> at[i] < |s| && c[i] == s[at[i]])
    && (forall i, j :: 0 <= i < j < |c| ==> at[i] < at[j])
  }

  ghost predicate Subsequence<T>(c: seq<T>, s: seq<T>) {
    exists at :: Embeds(c, s, at)
  }

  ghost predicate Common<T>(c: seq<T>, a: seq<T>, b: seq<T>) {
    Subsequence(c, a) && Subsequence(c, b)
  }

  /** The textbook recurrence on last elements. */
  function Lcs<T(==)>(a: seq<T>, b: seq<T>): nat {
    if a == [] || b == [] then 0
    else
      var a', b' := a[..|a| - 1], b[..|b| - 1];
      if a[|a| - 1] == b[|b| - 1] then Lcs(a', b') + 1
      else Max(Lcs(a', b), Lcs(a, b'))
  }

  function Max(x: nat, y: nat): nat {
    if x >= y then x else y
  }

  lemma EmbedLonger<T>(c: seq<T>, s: seq<T>, t: T)
    requires Subsequence(c, s)
    ensures Subsequence(c, s + [t])
    ensures Subsequence(c + [t], s + [t])
  {
    var at: seq<nat> :| Embeds(c, s, at);
    assert Embeds(c, s + [t], at);
    assert Embeds(c + [t], s + [t], at + [|s|]);
  }

  lemma EmbedShorter<T>(c: seq<T>, s: seq<T>, at: seq<nat>)
    requires Embeds(c, s, at) && c != [] && s != []
    ensures Subsequence(c[..|c| - 1], s[..|s| - 1])
    ensures at[|c| - 1] != |s| - 1 ==> Subsequence(c, s[..|s| - 1])
  {
    var n := |c| - 1;
    assert Embeds(c[..n], s[..|s| - 1], at[..n]);
    if at[n] != |s| - 1 {
      assert Embeds(c, s[..|s| - 1], at);
    }
  }

  /** Some common subsequence is that long. */
  lemma {:induction false} LcsAttained<T>(a: seq<T>, b: seq<T>) returns (c: seq<T>)
    ensures Common(c, a, b) && |c| == Lcs(a, b)
    decreases |a| + |b|
  {
    if a == [] || b == [] {
      c := [];
      assert Embeds<T>([], a, []) && Embeds<T>([], b, []);
    } else {
      var a', b', x, y := a[..|a| - 1], b[..|b| - 1], a[|a| - 1], b[|b| - 1];
      assert a == a' + [x] && b == b' + [y];
      if x == y {
        c := LcsAttained(a', b');
        EmbedLonger(c, a', x);
        EmbedLonger(c, b', y);
        c := c + [x];
      } else if Lcs(a', b) >= Lcs(a, b') {
        c := LcsAttained(a', b);
        EmbedLonger(c, a', x);
      } else {
        c := LcsAttained(a, b');
        EmbedLonger(c, b', y);
      }
    }
  }

  /** No common subsequence is longer. */
  lemma {:induction false} LcsBound<T>(c: seq<T>, a: seq<T>, b: seq<T>)
    requires Common(c, a, b)
    ensures |c| <= Lcs(a, b)
    decreases |a| + |b|
  {
    var f: seq<nat>, g: seq<nat> :| Embeds(c, a, f) && Embeds(c, b, g);
    if c != [] && a != [] && b != [] {
      var n, a', b' := |c| - 1, a[..|a| - 1], b[..|b| - 1];
      EmbedShorter(c, a, f);
      EmbedShorter(c, b, g);
      if a[|a| - 1] == b[|b| - 1] {
        LcsBound(c[..n], a', b');
      } else if f[n] != |a| - 1 {
        LcsBound(c, a', b);
      } else {
        assert g[n] != |b| - 1;
        LcsBound(c, a, b');
      }
    } else {
      EmbeddingGrows(c, a, f);
      EmbeddingGrows(c, b, g);
    }
  }

  /** `m` is the length of a longest common subsequence of `a` and `b`. */
  ghost predicate IsLcsLength<T(!new)>(m: nat, a: seq<T>, b: seq<T>) {
    && (exists c :: Common(c, a, b) && |c| == m)
    && (forall c :: Common(c, a, b) ==> |c| <= m)
  }

  lemma LcsIsLongest<T(!new)>(a: seq<T>, b: seq<T>)
    ensures IsLcsLength(Lcs(a, b), a, b)
  {
    var w := LcsAttained(a, b);
    forall c | Common(c, a, b)
      ensures |c| <= Lcs(a, b)
    {
      LcsBound(c, a, b);
    }
  }

  lemma LcsCell<T>(a: seq<T>, b: seq<T>, i: nat, j: nat)
    requires i < |a| && j < |b|
    ensures Lcs(a[..i + 1], b[..j + 1]) ==
            if a[i] == b[j] then Lcs(a[..i], b[..j]) + 1
            else Max(Lcs(a[..i], b[..j + 1]), Lcs(a[..i + 1], b[..j]))
  {
    assert a[..i + 1][..i] == a[..i] && b[..j + 1][..j] == b[..j];
  }

  lemma RowCell(a: seq<string>, b: seq<string>, i: nat, j: nat, prev: seq<nat>, curr: seq<nat>)
    requires i < |a| && j < |b|
    requires RowOf(prev, a[..i], b, |b|) && RowOf(curr, a[..i + 1], b, j)
    ensures RowOf(curr + [if a[i] == b[j] then prev[j] + 1 else Max(prev[j + 1], curr[j])], a[..i + 1], b, j + 1)
  {
    LcsCell(a, b, i, j);
  }

  /** The rolling-row dynamic programme returns exactly the length of a longest common subsequence. */
  method LcsLen(a: seq<string>, b: seq<string>) returns (r: nat)
    ensures IsLcsLength(r, a, b)
    ensures r == Lcs(a, b)
  {
    LcsIsLongest(a, b);
    if a == [] || b == [] {
      return 0;
    }
    var prev: seq<nat> := seq(|b| + 1, _ => 0);
    for i := 0 to |a|
      invariant RowOf(prev, a[..i], b, |b|)
    {
      var curr: seq<nat> := [0];
      for j := 0 to |b|
        invariant RowOf(curr, a[..i + 1], b, j)
      {
        RowCell(a, b, i, j, prev, curr);
        curr := curr + [if a[i] == b[j] then prev[j] + 1 else Max(prev[j + 1], curr[j])];
      }
      prev := curr;
    }
    assert a[..|a|] == a && b[..|b|] == b;
    r := prev[|prev| - 1];
  }

  /** `row[j]` is the answer for `a` against the first `j` names of `b`. */
  ghost predicate RowOf(row: seq<nat>, a: seq<string>, b: seq<string>, n: nat)
    requires n <= |b|
  {
    |row| == n + 1 && forall j :: 0 <= j <= n ==> row[j] == Lcs(a, b[..j])
  }

  // ----- The trajectory score -----

  function Names(calls: seq<ToolCall>): seq<string> {
    seq(|calls|, i requires 0 <= i < |calls| => calls[i].name)
  }

  function ExpectedNames(calls: seq<ExpectedToolCall>): seq<string> {
    seq(|calls|, i requires 0 <= i < |calls| => calls[i].name)
  }

  /** Sequence Dice coefficient: shared order over total length. */
  function Dice(expected: seq<string>, observed: seq<string>): real {
    var total := |expected| + |observed|;
    if total == 0 then 1.0 else (2 * Lcs(expected, observed)) as real / total as real
  }

  lemma LcsAtMostEither<T(!new)>(a: seq<T>, b: seq<T>)
    ensures Lcs(a, b) <= |a| && Lcs(a, b) <= |b|
  {
    var c := LcsAttained(a, b);
    var f: seq<nat>, g: seq<nat> :| Embeds(c, a, f) && Embeds(c, b, g);
    EmbeddingGrows(c, a, f);
    EmbeddingGrows(c, b, g);
  }

  lemma {:induction false} EmbeddingGrowsAt<T>(c: seq<T>, s: seq<T>, at: seq<nat>, i: nat)
    requires Embeds(c, s, at) && i < |c|
    ensures i <= at[i] && at[i] + (|c| - i) <= |s|
    decreases |c| - i
  {
    LowerAt(c, s, at, i);
    if i + 1 < |c| {
      EmbeddingGrowsAt(c, s, at, i + 1);
    }
  }

  lemma {:induction false} LowerAt<T>(c: seq<T>, s: seq<T>, at: seq<nat>, i: nat)
    requires Embeds(c, s, at) && i < |c|
    ensures i <= at[i]
  {
    if i > 0 {
      LowerAt(c, s, at, i - 1);
    }
  }

  /** A subsequence is no longer than the sequence, and equals it when as long. */
  lemma EmbeddingGrows<T>(c: seq<T>, s: seq<T>, at: seq<nat>)
    requires Embeds(c, s, at)
    ensures |c| <= |s|
    ensures |c| == |s| ==> c == s
  {
    forall i | 0 <= i < |c|
      ensures i <= at[i] && at[i] + (|c| - i) <= |s|
    {
      EmbeddingGrowsAt(c, s, at, i);
    }
    if c != [] {
      assert at[0] + |c| <= |s|;
    }
  }

  lemma LcsSymmetric<T(!new)>(a: seq<T>, b: seq<T>)
    ensures Lcs(a, b) == Lcs(b, a)
  {
    var c := LcsAttained(a, b);
    var d := LcsAttained(b, a);
    LcsBound(c, b, a);
    LcsBound(d, a, b);
  }

  lemma LcsZero<T(!new)>(a: seq<T>, b: seq<T>)
    ensures Lcs(a, b) == 0 <==> forall x :: x in a ==> x !in b
  {
    if x :| x in a && x in b {
      var i :| 0 <= i < |a| && a[i] == x;
      var j :| 0 <= j < |b| && b[j] == x;
      assert Embeds([x], a, [i]) && Embeds([x], b, [j]);
      LcsBound([x], a, b);
    }
    var c := LcsAttained(a, b);
    if c != [] {
      var f: seq<nat>, g: seq<nat> :| Embeds(c, a, f) && Embeds(c, b, g);
      assert a[f[0]] in a && b[g[0]] in b;
    }
  }

  lemma LcsFull<T(!new)>(a: seq<T>, b: seq<T>)
    ensures 2 * Lcs(a, b) == |a| + |b| <==> a == b
  {
    LcsAtMostEither(a, b);
    var c := LcsAttained(a, b);
    var f: seq<nat>, g: seq<nat> :| Embeds(c, a, f) && Embeds(c, b, g);
    EmbeddingGrows(c, a, f);
    EmbeddingGrows(c, b, g);
    if a == b {
      assert Embeds(a, a, seq(|a|, i => i));
      LcsBound(a, a, b);
    }
  }

  /** `score` is the share of `part` in `whole`. */
  ghost predicate SharesOf(score: real, part: nat, whole: nat) { score * whole as real == part as real }

  lemma SharesOfTotal(part: nat, whole: nat)
    requires whole > 0
    ensures SharesOf(part as real / whole as real, part, whole)
  {
  }

  /** The trajectory score is a similarity: within [0, 1], symmetric, zero exactly when no tool
      name is shared, and one exactly when the two sequences are the same. */
  lemma TrajectoryScoreIsSimilarity(expected: seq<string>, observed: seq<string>)
    requires expected != []
    ensures 0.0 <= Dice(expected, observed) <= 1.0
    ensures Dice(expected, observed) == Dice(observed, expected)
    ensures Dice(expected, observed) == 0.0 <==> forall x :: x in expected ==> x !in observed
    ensures Dice(expected, observed) == 1.0 <==> expected == observed
  {
    LcsAtMostEither(expected, observed);
    LcsSymmetric(expected, observed);
    LcsZero(expected, observed);
    LcsFull(expected, observed);
    var twice, total := (2 * Lcs(expected, observed)) as real, (|expected| + |observed|) as real;
    RatioFacts(twice, total);
  }

  lemma RatioFacts(x: real, n: real)
    requires 0.0 <= x <= n && n > 0.0
    ensures 0.0 <= x / n <= 1.0
    ensures x / n == 0.0 <==> x == 0.0
    ensures x / n == 1.0 <==> x == n
  {
    var q := x / n;
    assert q * n == x;
  }

  /** `ToolTrajectory.evaluate`. */
  method EvaluateTrajectory(name: string, minScore: real, observed: seq<ToolCall>, reference: DatasetCase)
      returns (r: Result<EvaluatorScore>)
    ensures r.Err? <==> reference.expectedToolCalls == []
    ensures r.Err? ==> r.error == ConfigError
    ensures r.Ok? ==>
              var want, got := ExpectedNames(reference.expectedToolCalls), Names(observed);
              && r.value.evaluator == name
              && r.value.score == Dice(want, got)
              && (exists m: nat :: IsLcsLength(m, want, got) && SharesOf(r.value.score, 2 * m, |want| + |got|))
              && r.value.passed == Some(r.value.score >= minScore)
              && (r.value.score == 1.0 <==> want == got)
  {
    if reference.expectedToolCalls == [] {
      return Err(ConfigError);
    }
    var want, got := ExpectedNames(reference.expectedToolCalls), Names(observed);
    var length := LcsLen(want, got);
    var denom := |want| + |got|;
    var score := if denom != 0 then (2 * length) as real / denom as real else 1.0;
    TrajectoryScoreIsSimilarity(want, got);
    LcsIsLongest(want, got);
    SharesOfTotal(2 * Lcs(want, got), |want| + |got|);
    r := Ok(Score(name, score, Some(score >= minScore)));
  }
}
