/** The order-blind tool evaluator, and how its score relates to the order-sensitive one. */
module Selection {
  import opened Basics
  import opened Domain
  import opened Trajectory

  function NameSet(names: seq<string>): set<string> {
    set n | n in names
  }

  /** Shared names over all names; two empty sets are alike. */
  function Jaccard(a: set<string>, b: set<string>): real {
    if a + b == {} then 1.0 else |a * b| as real / |a + b| as real
  }

  lemma PartOfUnion(a: set<string>, b: set<string>)
    ensures |a * b| <= |a + b|
    ensures |a * b| == |a + b| <==> a == b
  {
    assert |a + b| == |a * b| + |(a - b) + (b - a)| by {
      assert a + b == (a * b) + ((a - b) + (b - a));
      assert (a * b) * ((a - b) + (b - a)) == {};
    }
    if |a * b| == |a + b| {
      assert (a - b) + (b - a) == {};
      forall n
        ensures n in a <==> n in b
      {
        assert n !in (a - b) + (b - a);
      }
    }
  }

  /** Selection ignores order and repetition, is zero exactly when the trajectory score is, and is
      one whenever the trajectory score is. */
  lemma SelectionFollowsTrajectory(expected: seq<string>, observed: seq<string>)
    requires expected != []
    ensures var score := Jaccard(NameSet(expected), NameSet(observed));
            && 0.0 <= score <= 1.0
            && (score == 1.0 <==> forall n :: n in expected <==> n in observed)
            && (score == 0.0 <==> Dice(expected, observed) == 0.0)
            && (Dice(expected, observed) == 1.0 ==> score == 1.0)
  {
    var a, b := NameSet(expected), NameSet(observed);
    assert expected[0] in a + b;
    TrajectoryScoreIsSimilarity(expected, observed);
    PartOfUnion(a, b);
    RatioFacts(|a * b| as real, |a + b| as real);
    assert a == b <==> forall n :: n in expected <==> n in observed by {
      assert forall n :: (n in a <==> n in expected) && (n in b <==> n in observed);
    }
    assert a * b == {} <==> forall n :: n in expected ==> n !in observed by {
      assert forall n :: n in a * b <==> n in expected && n in observed;
    }
  }

  /** `ToolSelection.evaluate`. */
  method EvaluateSelection(name: string, minScore: real, observed: seq<ToolCall>, reference: DatasetCase)
      returns (r: Result<EvaluatorScore>)
    ensures r.Err? <==> reference.expectedToolCalls == []
    ensures r.Err? ==> r.error == ConfigError
    ensures r.Ok? ==>
              var want, got := ExpectedNames(reference.expectedToolCalls), Names(observed);
              && r.value.evaluator == name
              && r.value.passed == Some(r.value.score >= minScore)
              && SharesOf(r.value.score, |NameSet(want) * NameSet(got)|, |NameSet(want) + NameSet(got)|)
              && (r.value.score == 1.0 <==> forall n :: n in want <==> n in got)
              && (observed == [] ==> r.value.score == 0.0)
  {
    if reference.expectedToolCalls == [] {
      return Err(ConfigError);
    }
    var want, got := ExpectedNames(reference.expectedToolCalls), Names(observed);
    SelectionFollowsTrajectory(want, got);
    assert observed == [] ==> NameSet(want) * NameSet(got) == {};
    assert want[0] in NameSet(want) + NameSet(got);
    SharesOfTotal(|NameSet(want) * NameSet(got)|, |NameSet(want) + NameSet(got)|);
    var score := Jaccard(NameSet(want), NameSet(got));
    r := Ok(Score(name, score, Some(score >= minScore)));
  }
}
