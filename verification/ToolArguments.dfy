/** The tool-arguments evaluator: k-th labelled expectation of a tool against its k-th observed call. */
module ToolArguments {
  import opened Basics
  import opened Sequences
  import opened Domain
  import opened Canonical

  /** An expectation that carries arguments. */
  datatype Labelled = Labelled(name: string, arguments: seq<Entry>)

  function LabelledCalls(expected: seq<ExpectedToolCall>): seq<Labelled> {
    if expected == [] then []
    else
      var rest, e := LabelledCalls(expected[..|expected| - 1]), expected[|expected| - 1];
      if e.arguments.Some? then rest + [Labelled(e.name, e.arguments.value)] else rest
  }

  /** Which expectations are labelled: `at` lists, in order, exactly the ones whose arguments are given. */
  ghost predicate LabelsAt(expected: seq<ExpectedToolCall>, labelled: seq<Labelled>, at: seq<nat>) {
    && |at| == |labelled|
    && (forall k :: 0 <= k < |at| ==>
          && at[k] < |expected| && expected[at[k]].arguments.Some?
          && labelled[k] == Labelled(expected[at[k]].name, expected[at[k]].arguments.value))
    && (forall j, k :: 0 <= j < k < |at| ==> at[j] < at[k])
    && (forall i :: 0 <= i < |expected| && expected[i].arguments.Some? ==> i in at)
  }

  lemma OneMoreLabel(expected: seq<ExpectedToolCall>, labelled: seq<Labelled>, at: seq<nat>, e: ExpectedToolCall)
    requires LabelsAt(expected, labelled, at)
    ensures e.arguments.None? ==> LabelsAt(expected + [e], labelled, at)
    ensures e.arguments.Some? ==>
              LabelsAt(expected + [e], labelled + [Labelled(e.name, e.arguments.value)], at + [|expected|])
  {
    var more := expected + [e];
    assert forall i :: 0 <= i < |expected| ==> more[i] == expected[i];
    assert more[|expected|] == e;
    if e.arguments.Some? {
      var later := at + [|expected|];
      assert later[|at|] == |expected|;
      assert forall i :: i in at ==> i in later;
    }
  }

  /** Every expectation with arguments is labelled, an empty mapping included, in order and once. */
  lemma {:induction false} LabelledAreGiven(expected: seq<ExpectedToolCall>) returns (at: seq<nat>)
    ensures LabelsAt(expected, LabelledCalls(expected), at)
  {
    if expected == [] {
      at := [];
    } else {
      var n := |expected| - 1;
      var before := LabelledAreGiven(expected[..n]);
      OneMoreLabel(expected[..n], LabelledCalls(expected[..n]), before, expected[n]);
      assert expected[..n] + [expected[n]] == expected;
      at := if expected[n].arguments.Some? then before + [n] else before;
    }
  }

  /** The expectations naming `tool`, in order. */
  function LabelledFor(labelled: seq<Labelled>, tool: string): seq<Labelled> {
    if labelled == [] then []
    else
      var rest, e := LabelledFor(labelled[..|labelled| - 1], tool), labelled[|labelled| - 1];
      if e.name == tool then rest + [e] else rest
  }

  /** The observed calls to `tool`, in order. */
  function CallsTo(calls: seq<ToolCall>, tool: string): seq<ToolCall> {
    if calls == [] then []
    else
      var rest, c := CallsTo(calls[..|calls| - 1], tool), calls[|calls| - 1];
      if c.name == tool then rest + [c] else rest
  }

  predicate SameArguments(e: Labelled, c: ToolCall) {
    CanonicalForm(Mapping(c.arguments)) == CanonicalForm(Mapping(e.arguments))
  }

  /** Positions at which the wanted calls of one tool agree with the observed ones. */
  function PositionalMatches(wanted: seq<Labelled>, got: seq<ToolCall>): (n: nat)
    ensures n <= |wanted|
  {
    if wanted == [] then 0
    else
      var k := |wanted| - 1;
      PositionalMatches(wanted[..k], got) + if k < |got| && SameArguments(wanted[k], got[k]) then 1 else 0
  }

  /** Matches summed over the expectations of `tools` only; all of them when every tool is in it. */
  ghost function MatchesAmong(labelled: seq<Labelled>, calls: seq<ToolCall>, tools: iset<string>): (n: nat)
    ensures n <= |labelled|
  {
    if labelled == [] then 0
    else
      var k := |labelled| - 1;
      var e, before := labelled[k], labelled[..k];
      var at := |LabelledFor(before, e.name)|;
      var got := CallsTo(calls, e.name);
      MatchesAmong(before, calls, tools)
        + if e.name in tools && at < |got| && SameArguments(e, got[at]) then 1 else 0
  }

  ghost const ALL_TOOLS: iset<string> := iset tool: string | true

  // ----- What the count means, tool by tool -----

  lemma LabelledForSnoc(labelled: seq<Labelled>, e: Labelled, tool: string)
    ensures LabelledFor(labelled + [e], tool)
         == if e.name == tool then LabelledFor(labelled, tool) + [e] else LabelledFor(labelled, tool)
  {
    assert (labelled + [e])[..|labelled|] == labelled;
  }

  lemma PositionalSnoc(wanted: seq<Labelled>, e: Labelled, got: seq<ToolCall>)
    ensures PositionalMatches(wanted + [e], got)
         == PositionalMatches(wanted, got)
            + if |wanted| < |got| && SameArguments(e, got[|wanted|]) then 1 else 0
  {
    var k, more := |wanted|, wanted + [e];
    assert more[..k] == wanted && more[k] == e;
  }

  /** Restricted to one tool, the running counters compute positional matching. */
  lemma {:induction false} MatchesOfOneTool(labelled: seq<Labelled>, calls: seq<ToolCall>, tool: string)
    ensures MatchesAmong(labelled, calls, iset{tool})
         == PositionalMatches(LabelledFor(labelled, tool), CallsTo(calls, tool))
  {
    if labelled != [] {
      var before, e := labelled[..|labelled| - 1], labelled[|labelled| - 1];
      MatchesOfOneTool(before, calls, tool);
      if e.name == tool {
        PositionalSnoc(LabelledFor(before, tool), e, CallsTo(calls, tool));
      }
    }
  }

  /** Disjoint groups of tools contribute independently. */
  lemma {:induction false} MatchesSplit(
    labelled: seq<Labelled>, calls: seq<ToolCall>, some: iset<string>, others: iset<string>)
    requires some !! others
    ensures MatchesAmong(labelled, calls, some + others)
         == MatchesAmong(labelled, calls, some) + MatchesAmong(labelled, calls, others)
  {
    if labelled != [] {
      MatchesSplit(labelled[..|labelled| - 1], calls, some, others);
    }
  }

  /** The positional matches of each of these tools, added up. */
  function TotalOver(labelled: seq<Labelled>, calls: seq<ToolCall>, tools: seq<string>): nat {
    if tools == [] then 0
    else
      var k := |tools| - 1;
      TotalOver(labelled, calls, tools[..k])
        + PositionalMatches(LabelledFor(labelled, tools[k]), CallsTo(calls, tools[k]))
  }

  lemma {:induction false} MatchesOfTools(labelled: seq<Labelled>, calls: seq<ToolCall>, tools: seq<string>)
    requires NoDup(tools)
    ensures MatchesAmong(labelled, calls, iset tool | tool in tools) == TotalOver(labelled, calls, tools)
  {
    if tools == [] {
      NamesOutside(labelled, calls, iset tool | tool in tools);
    } else {
      var k := |tools| - 1;
      var before := iset tool | tool in tools[..k];
      MatchesOfTools(labelled, calls, tools[..k]);
      MatchesOfOneTool(labelled, calls, tools[k]);
      MatchesSplit(labelled, calls, before, iset{tools[k]});
      assert (iset tool | tool in tools) == before + iset{tools[k]};
    }
  }

  lemma {:induction false} NamesOutside(labelled: seq<Labelled>, calls: seq<ToolCall>, tools: iset<string>)
    requires tools == iset{}
    ensures MatchesAmong(labelled, calls, tools) == 0
  {
    if labelled != [] {
      NamesOutside(labelled[..|labelled| - 1], calls, tools);
    }
  }

  lemma {:induction false} NamesInside(labelled: seq<Labelled>, calls: seq<ToolCall>, tools: iset<string>)
    requires forall i :: 0 <= i < |labelled| ==> labelled[i].name in tools
    ensures MatchesAmong(labelled, calls, tools) == MatchesAmong(labelled, calls, ALL_TOOLS)
  {
    if labelled != [] {
      NamesInside(labelled[..|labelled| - 1], calls, tools);
    }
  }

  /** The count of the running counters is the sum, over the tools the expectations name, of the positions
      at which that tool's expectations and calls agree. */
  lemma MatchesIsSum(labelled: seq<Labelled>, calls: seq<ToolCall>, tools: seq<string>)
    requires NoDup(tools) && forall i :: 0 <= i < |labelled| ==> labelled[i].name in tools
    ensures MatchesAmong(labelled, calls, ALL_TOOLS) == TotalOver(labelled, calls, tools)
  {
    NamesInside(labelled, calls, iset tool | tool in tools);
    MatchesOfTools(labelled, calls, tools);
  }

  /** For `tool`, the wanted arguments are position by position equal to a prefix of its calls. */
  ghost predicate PrefixMatch(labelled: seq<Labelled>, calls: seq<ToolCall>, tool: string) {
    var wanted, got := LabelledFor(labelled, tool), CallsTo(calls, tool);
    |wanted| <= |got| && forall i :: 0 <= i < |wanted| ==> SameArguments(wanted[i], got[i])
  }

  lemma PrefixMatchSnoc(labelled: seq<Labelled>, e: Labelled, calls: seq<ToolCall>, tool: string)
    ensures PrefixMatch(labelled + [e], calls, tool)
       <==> PrefixMatch(labelled, calls, tool)
            && (e.name == tool ==>
                  var at, got := |LabelledFor(labelled, tool)|, CallsTo(calls, tool);
                  at < |got| && SameArguments(e, got[at]))
  {
    LabelledForSnoc(labelled, e, tool);
    var wanted := LabelledFor(labelled, tool);
    if e.name == tool {
      var longer := wanted + [e];
      if PrefixMatch(labelled + [e], calls, tool) {
        assert longer[|wanted|] == e;
        assert forall i :: 0 <= i < |wanted| ==> longer[i] == wanted[i];
      }
    }
  }

  /** Every expectation is matched exactly when every tool's expectations are a prefix match. */
  lemma {:induction false} FullScoreIsPrefixMatch(labelled: seq<Labelled>, calls: seq<ToolCall>)
    ensures MatchesAmong(labelled, calls, ALL_TOOLS) == |labelled|
       <==> forall tool :: PrefixMatch(labelled, calls, tool)
  {
    if labelled == [] {
      assert forall tool :: PrefixMatch(labelled, calls, tool);
    } else {
      var k := |labelled| - 1;
      var before, e := labelled[..k], labelled[k];
      assert before + [e] == labelled;
      FullScoreIsPrefixMatch(before, calls);
      forall tool
        ensures PrefixMatch(labelled, calls, tool)
           <==> PrefixMatch(before, calls, tool)
                && (e.name == tool ==>
                      var at, got := |LabelledFor(before, tool)|, CallsTo(calls, tool);
                      at < |got| && SameArguments(e, got[at]))
      {
        PrefixMatchSnoc(before, e, calls, tool);
      }
      assert PrefixMatch(labelled, calls, e.name) || !PrefixMatch(labelled, calls, e.name);
    }
  }

  // ----- What a full score says about the arguments themselves -----

  /** Arguments are held as dictionaries: keys are distinct at every depth. */
  ghost predicate AllWellFormed(labelled: seq<Labelled>, calls: seq<ToolCall>) {
    && (forall i :: 0 <= i < |labelled| ==> WellFormed(Mapping(labelled[i].arguments)))
    && (forall i :: 0 <= i < |calls| ==> WellFormed(Mapping(calls[i].arguments)))
  }

  /** For `tool`, the wanted arguments have, position by position, the structure of a prefix of its calls. */
  ghost predicate StructuralPrefix(labelled: seq<Labelled>, calls: seq<ToolCall>, tool: string) {
    var wanted, got := LabelledFor(labelled, tool), CallsTo(calls, tool);
    |wanted| <= |got|
    && forall i :: 0 <= i < |wanted| ==> Equivalent(Mapping(got[i].arguments), Mapping(wanted[i].arguments))
  }

  /** For `tool`, no list faces a mapping between an expectation and the call at its position. */
  ghost predicate SameShapes(labelled: seq<Labelled>, calls: seq<ToolCall>, tool: string) {
    var wanted, got := LabelledFor(labelled, tool), CallsTo(calls, tool);
    forall i :: 0 <= i < |wanted| && i < |got| ==> SameShape(Mapping(got[i].arguments), Mapping(wanted[i].arguments))
  }

  lemma {:induction false} LabelledForFrom(labelled: seq<Labelled>, tool: string)
    ensures forall e :: e in LabelledFor(labelled, tool) ==> e in labelled
  {
    if labelled != [] {
      LabelledForFrom(labelled[..|labelled| - 1], tool);
    }
  }

  lemma {:induction false} CallsToFrom(calls: seq<ToolCall>, tool: string)
    ensures forall c :: c in CallsTo(calls, tool) ==> c in calls
  {
    if calls != [] {
      CallsToFrom(calls[..|calls| - 1], tool);
    }
  }

  lemma ToolIsStructural(labelled: seq<Labelled>, calls: seq<ToolCall>, tool: string)
    requires AllWellFormed(labelled, calls)
    ensures StructuralPrefix(labelled, calls, tool) ==>
              PrefixMatch(labelled, calls, tool) && SameShapes(labelled, calls, tool)
    ensures PrefixMatch(labelled, calls, tool) && SameShapes(labelled, calls, tool) ==>
              StructuralPrefix(labelled, calls, tool)
  {
    LabelledForFrom(labelled, tool);
    CallsToFrom(calls, tool);
    var wanted, got := LabelledFor(labelled, tool), CallsTo(calls, tool);
    forall i | 0 <= i < |wanted| && i < |got|
      ensures var v, w := Mapping(got[i].arguments), Mapping(wanted[i].arguments);
              Equivalent(v, w) <==> SameArguments(wanted[i], got[i]) && SameShape(v, w)
    {
      assert wanted[i] in labelled && got[i] in calls;
      var v, w := Mapping(got[i].arguments), Mapping(wanted[i].arguments);
      CanonicalFormIsStructural(v, w);
    }
  }

  /** Every tool's arguments have the structure of a prefix of its calls exactly when they all match and
      no list faces a mapping. */
  lemma FullScoreIsStructural(labelled: seq<Labelled>, calls: seq<ToolCall>)
    requires AllWellFormed(labelled, calls)
    ensures (forall tool :: StructuralPrefix(labelled, calls, tool))
       <==> MatchesAmong(labelled, calls, ALL_TOOLS) == |labelled| && forall tool :: SameShapes(labelled, calls, tool)
  {
    FullScoreIsPrefixMatch(labelled, calls);
    forall tool
      ensures StructuralPrefix(labelled, calls, tool)
         <==> PrefixMatch(labelled, calls, tool) && SameShapes(labelled, calls, tool)
    {
      ToolIsStructural(labelled, calls, tool);
    }
  }

  /** One expectation of a tool and one call to it: they match exactly when their arguments do. */
  lemma OneCallEach(e: Labelled, c: ToolCall)
    requires e.name == c.name
    ensures MatchesAmong([e], [c], ALL_TOOLS) == |[e]| <==> SameArguments(e, c)
    ensures StructuralPrefix([e], [c], e.name) <==> Equivalent(Mapping(c.arguments), Mapping(e.arguments))
  {
    OnlyOfItsTool(e, c);
    assert [e][..0] == [];
    assert MatchesAmong([], [c], ALL_TOOLS) == 0;
  }

  lemma OnlyOfItsTool(e: Labelled, c: ToolCall)
    requires e.name == c.name
    ensures LabelledFor([e], e.name) == [e] && CallsTo([c], e.name) == [c]
  {
    assert LabelledFor([e][..0], e.name) == [];
    assert CallsTo([c][..0], e.name) == [];
  }

  /** The value of one argument, authored as a mapping of one pair and observed as a list of one pair. */
  function PairMapping(k: string, n: real): Value { Mapping([Entry(k, Number(n))]) }

  function PairList(k: string, n: real): Value { List([List([Text(k), Number(n)])]) }

  lemma PairArguments(a: string, k: string, n: real)
    ensures WellFormed(Mapping([Entry(a, PairMapping(k, n))])) && WellFormed(Mapping([Entry(a, PairList(k, n))]))
    ensures CanonicalForm(Mapping([Entry(a, PairMapping(k, n))])) == CanonicalForm(Mapping([Entry(a, PairList(k, n))]))
    ensures !Equivalent(Mapping([Entry(a, PairList(k, n))]), Mapping([Entry(a, PairMapping(k, n))]))
  {
    var m, l := [Entry(a, PairMapping(k, n))], [Entry(a, PairList(k, n))];
    PairsWellFormed(k, n);
    assert m[0].value == PairMapping(k, n) && l[0].value == PairList(k, n);
    assert !Equivalent(l[0].value, m[0].value);
    MappingCollidesWithPairList(k, n);
    CanonicalMapping(m);
    CanonicalMapping(l);
    assert Items(m) == Items(l);
  }

  lemma PairsWellFormed(k: string, n: real)
    ensures WellFormed(PairMapping(k, n)) && WellFormed(PairList(k, n))
  {
    assert WellFormed(Number(n)) && WellFormed(Text(k));
    assert WellFormed(List([Text(k), Number(n)]));
  }

  /** Shapes do matter: a mapping of one pair as the value of an argument is matched by a list of that
      pair, so a call of another structure gets the full score. */
  lemma NestedMappingCollides(tool: string, a: string, k: string, n: real)
    ensures var labelled := [Labelled(tool, [Entry(a, PairMapping(k, n))])];
            var calls := [ToolCall(tool, [Entry(a, PairList(k, n))], true)];
            && AllWellFormed(labelled, calls) && MatchesAmong(labelled, calls, ALL_TOOLS) == |labelled|
            && !StructuralPrefix(labelled, calls, tool)
  {
    PairArguments(a, k, n);
    OneCallEach(Labelled(tool, [Entry(a, PairMapping(k, n))]), ToolCall(tool, [Entry(a, PairList(k, n))], true));
  }

  // ----- The evaluator -----

  function CallsIn(byName: map<string, seq<ToolCall>>, tool: string): seq<ToolCall> {
    if tool in byName then byName[tool] else []
  }

  function SeenOf(seen: map<string, nat>, tool: string): nat {
    if tool in seen then seen[tool] else 0
  }

  /** Group the observed calls by tool name, keeping their order. */
  method GroupByName(calls: seq<ToolCall>) returns (byName: map<string, seq<ToolCall>>)
    ensures forall tool :: CallsIn(byName, tool) == CallsTo(calls, tool)
  {
    byName := map[];
    for i := 0 to |calls|
      invariant forall tool :: CallsIn(byName, tool) == CallsTo(calls[..i], tool)
    {
      var c := calls[i];
      assert calls[..i + 1][..i] == calls[..i];
      byName := byName[c.name := CallsIn(byName, c.name) + [c]];
    }
    assert calls[..|calls|] == calls;
  }

  lemma MatchesSnoc(labelled: seq<Labelled>, k: nat, calls: seq<ToolCall>)
    requires k < |labelled|
    ensures var e, before := labelled[k], labelled[..k];
            var at, got := |LabelledFor(before, e.name)|, CallsTo(calls, e.name);
            MatchesAmong(labelled[..k + 1], calls, ALL_TOOLS)
            == MatchesAmong(before, calls, ALL_TOOLS) + if at < |got| && SameArguments(e, got[at]) then 1 else 0
    ensures forall tool :: |LabelledFor(labelled[..k + 1], tool)|
                        == |LabelledFor(labelled[..k], tool)| + if labelled[k].name == tool then 1 else 0
  {
    assert labelled[..k + 1][..k] == labelled[..k];
  }

  /** The matching loop: one running counter per tool. */
  method CountMatched(labelled: seq<Labelled>, observed: seq<ToolCall>) returns (matched: nat)
    ensures matched == MatchesAmong(labelled, observed, ALL_TOOLS)
    ensures matched == |labelled| <==> forall tool :: PrefixMatch(labelled, observed, tool)
  {
    var byName := GroupByName(observed);
    var seen: map<string, nat> := map[];
    matched := 0;
    for k := 0 to |labelled|
      invariant forall tool :: SeenOf(seen, tool) == |LabelledFor(labelled[..k], tool)|
      invariant matched == MatchesAmong(labelled[..k], observed, ALL_TOOLS)
    {
      MatchesSnoc(labelled, k, observed);
      var e := labelled[k];
      var index := SeenOf(seen, e.name);
      ghost var before := seen;
      seen := seen[e.name := index + 1];
      forall tool
        ensures SeenOf(seen, tool) == |LabelledFor(labelled[..k + 1], tool)|
      {
        assert SeenOf(before, tool) == |LabelledFor(labelled[..k], tool)|;
      }
      var candidates := CallsIn(byName, e.name);
      if index < |candidates| && SameArguments(e, candidates[index]) {
        matched := matched + 1;
      }
    }
    assert labelled[..|labelled|] == labelled;
    FullScoreIsPrefixMatch(labelled, observed);
  }

  /** `score` is matched over labelled; it is 1 exactly for prefix matches of every tool, and, for
      well-formed arguments of the same shapes, exactly for structural ones. */
  ghost predicate IsScored(labelled: seq<Labelled>, observed: seq<ToolCall>, score: real) {
    && labelled != []
    && score == MatchesAmong(labelled, observed, ALL_TOOLS) as real / |labelled| as real
    && (score == 1.0 <==> forall tool :: PrefixMatch(labelled, observed, tool))
    && (AllWellFormed(labelled, observed) && (forall tool :: SameShapes(labelled, observed, tool)) ==>
          (score == 1.0 <==> forall tool :: StructuralPrefix(labelled, observed, tool)))
  }

  lemma ScoreMeaning(labelled: seq<Labelled>, observed: seq<ToolCall>, matched: nat)
    requires labelled != [] && matched == MatchesAmong(labelled, observed, ALL_TOOLS)
    ensures var score := matched as real / |labelled| as real;
            0.0 <= score <= 1.0 && IsScored(labelled, observed, score)
  {
    Proportion(matched, |labelled|);
    FullScoreIsPrefixMatch(labelled, observed);
    if AllWellFormed(labelled, observed) {
      FullScoreIsStructural(labelled, observed);
    }
  }

  lemma NoneGiven(expected: seq<ExpectedToolCall>, at: seq<nat>)
    requires LabelsAt(expected, LabelledCalls(expected), at)
    ensures LabelledCalls(expected) == [] <==> forall c :: c in expected ==> c.arguments.None?
  {
    if LabelledCalls(expected) != [] {
      assert expected[at[0]] in expected;
    }
  }

  /** `ToolArguments.evaluate`. */
  method EvaluateToolArguments(name: string, minScore: real, observed: seq<ToolCall>, reference: DatasetCase)
      returns (r: Result<EvaluatorScore>)
    ensures r.Err? <==> forall c :: c in reference.expectedToolCalls ==> c.arguments.None?
    ensures r.Err? ==> r.error == ConfigError
    ensures exists at :: LabelsAt(reference.expectedToolCalls, LabelledCalls(reference.expectedToolCalls), at)
    ensures r.Ok? ==>
              && r.value.evaluator == name
              && r.value.passed == Some(r.value.score >= minScore)
              && IsScored(LabelledCalls(reference.expectedToolCalls), observed, r.value.score)
  {
    var labelled := LabelledCalls(reference.expectedToolCalls);
    ghost var at := LabelledAreGiven(reference.expectedToolCalls);
    NoneGiven(reference.expectedToolCalls, at);
    if labelled == [] {
      return Err(ConfigError);
    }
    var matched := CountMatched(labelled, observed);
    var score := matched as real / |labelled| as real;
    ScoreMeaning(labelled, observed, matched);
    r := Ok(Score(name, score, Some(score >= minScore)));
  }

  lemma Proportion(part: nat, whole: nat)
    requires part <= whole && whole > 0
    ensures 0.0 <= part as real / whole as real <= 1.0
    ensures part as real / whole as real == 1.0 <==> part == whole
  {
    var q, n := part as real / whole as real, whole as real;
    assert q * n == part as real;
  }
}
