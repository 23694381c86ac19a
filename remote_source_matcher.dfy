/**
 The plan-testing matcher for remote-source nodes, the edges through which a
 fragment reads the output of upstream fragments. Matching has two phases:
 a shape check that only looks at the node's kind, and a detail check, legal
 only after the shape check passed, that compares the node's source fragment
 list with the expected one and, on equality, binds every expected alias to
 the node's output variable at the alias's position.

 The matcher's two fields are set once by its constructor and never change,
 so the matcher is a datatype value and both checks are functions of it.
 */
module RemoteSourceMatching {
  import opened Plan
  import Lists

  /** The expected source fragments, in order, and the expected aliases,
      each naming the position of an output column of the matched node. */
  datatype RemoteSourceMatcher = RemoteSourceMatcher(
    sourceFragmentIds: seq<FragmentId>,
    outputSymbolAliases: map<string, Int32>)

  /** What the detail check returns: no match, or a match carrying the
      alias bindings it produced. */
  datatype MatchResult = NoMatch | Match(aliases: map<string, SymbolReference>)

  /** The exception that escapes the detail check when an alias names a
      position outside the node's output list. */
  datatype MatchError = IndexOutOfBounds

  /** A call of the detail check either returns a result or throws. */
  datatype Outcome = Returned(result: MatchResult) | Thrown(error: MatchError)

  /** The shape check: a type test on the node's kind. It holds of every
      remote-source node and of no other node. */
  predicate ShapeMatches(node: PlanNode): (r: bool)
    ensures r ==> exists ids, outputs :: node == RemoteSource(ids, outputs)
    ensures !r ==> exists kind :: node == OtherNode(kind)
  {
    node.RemoteSource?
  }

  /** Every alias names a position in an output list of length `arity`. */
  predicate IndicesInRange(aliases: map<string, Int32>, arity: nat)
  {
    forall k :: k in aliases ==> 0 <= aliases[k] as int < arity
  }

  /** The alias map with each index replaced by a reference to the output
      variable at that index (the value transformation of the alias map).
      The keys are kept; only the values change. */
  function BindAliases(aliases: map<string, Int32>, outputs: seq<Variable>,
                       createRef: Variable -> SymbolReference): (r: map<string, SymbolReference>)
    requires IndicesInRange(aliases, |outputs|)
    ensures r.Keys == aliases.Keys
    ensures forall k :: k in r ==> r[k] == createRef(outputs[aliases[k] as int])
  {
    map k | k in aliases :: createRef(outputs[aliases[k] as int])
  }

  /** The detail check. `context` stands for the statistics provider, the
      session, the metadata and the incoming symbol aliases the caller
      passes; `createRef` is the symbol-reference constructor, left
      uninterpreted. The node must have passed the shape check.

      The fragment lists are compared first: any difference in length, order
      or contents gives no match, whatever the aliases are. With equal lists,
      an alias that names a position outside the node's output list makes
      the lookup throw; otherwise the result is a match whose aliases are
      exactly the expected ones, each bound to its output column. */
  function DetailMatches<C>(matcher: RemoteSourceMatcher, node: PlanNode, context: C,
                            createRef: Variable -> SymbolReference): (r: Outcome)
    requires ShapeMatches(node)
    ensures r == Returned(NoMatch) <==> node.sourceFragmentIds != matcher.sourceFragmentIds
    ensures r == Thrown(IndexOutOfBounds) <==>
              node.sourceFragmentIds == matcher.sourceFragmentIds
              && !IndicesInRange(matcher.outputSymbolAliases, |node.outputVariables|)
    ensures r.Returned? && r.result.Match? <==>
              node.sourceFragmentIds == matcher.sourceFragmentIds
              && IndicesInRange(matcher.outputSymbolAliases, |node.outputVariables|)
    ensures r.Returned? && r.result.Match? ==>
              && r.result.aliases.Keys == matcher.outputSymbolAliases.Keys
              && forall k :: k in r.result.aliases ==>
                   0 <= matcher.outputSymbolAliases[k] as int < |node.outputVariables|
                   && r.result.aliases[k]
                      == createRef(node.outputVariables[matcher.outputSymbolAliases[k] as int])
  {
    Lists.ElementwiseEqualIsSeqEquality(node.sourceFragmentIds, matcher.sourceFragmentIds);
    if Lists.ElementwiseEqual(node.sourceFragmentIds, matcher.sourceFragmentIds) then
      if IndicesInRange(matcher.outputSymbolAliases, |node.outputVariables|) then
        Returned(Match(BindAliases(matcher.outputSymbolAliases, node.outputVariables, createRef)))
      else
        Thrown(IndexOutOfBounds)
    else
      Returned(NoMatch)
  }

  /** The shape check accepts exactly the remote-source nodes, whatever
      their fragment lists and outputs, and rejects every other kind; when
      it accepts, the node can be read as a remote-source node. */
  lemma ShapeMatchesExactlyRemoteSources(node: PlanNode)
    ensures ShapeMatches(node) <==> exists ids, outputs :: node == RemoteSource(ids, outputs)
    ensures forall kind :: !ShapeMatches(OtherNode(kind))
  {
    if node.RemoteSource? {
      assert node == RemoteSource(node.sourceFragmentIds, node.outputVariables);
    }
  }

  /** A node whose list has the expected fragments in another order does not
      match: the comparison is ordered. */
  lemma ReorderedFragmentsDoNotMatch<C>(
    matcher: RemoteSourceMatcher, node: PlanNode, context: C,
    createRef: Variable -> SymbolReference, i: nat, j: nat)
    requires ShapeMatches(node)
    requires i < j < |matcher.sourceFragmentIds|
    requires matcher.sourceFragmentIds[i] != matcher.sourceFragmentIds[j]
    requires node.sourceFragmentIds == matcher.sourceFragmentIds[i := matcher.sourceFragmentIds[j]][j := matcher.sourceFragmentIds[i]]
    ensures DetailMatches(matcher, node, context, createRef) == Returned(NoMatch)
  {
  }

  /** A node that reads a strict sub-list or a strict super-list of the
      expected fragments does not match, even when one list is a prefix of
      the other. */
  lemma LengthMismatchDoesNotMatch<C>(
    matcher: RemoteSourceMatcher, node: PlanNode, context: C,
    createRef: Variable -> SymbolReference)
    requires ShapeMatches(node)
    requires |node.sourceFragmentIds| != |matcher.sourceFragmentIds|
    ensures DetailMatches(matcher, node, context, createRef) == Returned(NoMatch)
  {
  }

  /** Only the node and the matcher decide the outcome: the statistics,
      session, metadata and incoming aliases are never consulted, and two
      calls with the same node give the same outcome. */
  lemma ResultIgnoresContext<C>(
    matcher: RemoteSourceMatcher, node: PlanNode, context1: C, context2: C,
    createRef: Variable -> SymbolReference)
    requires ShapeMatches(node)
    ensures DetailMatches(matcher, node, context1, createRef)
            == DetailMatches(matcher, node, context2, createRef)
  {
  }

  /** An edge that expects fragments [F1, F2] with aliases a -> 0 and
      b -> 1: a node reading exactly [F1, F2] with two output columns binds
      a to column 0 and b to column 1; a node reading only [F1], or [F2, F1],
      gives no match; a node with a single output column makes the lookup
      for b throw. */
  lemma {:induction false} TwoFragmentEdge<C>(
    f1: FragmentId, f2: FragmentId, x: Variable, y: Variable, context: C,
    createRef: Variable -> SymbolReference)
    requires f1 != f2
    ensures var matcher := RemoteSourceMatcher([f1, f2], map["a" := 0, "b" := 1]);
      && DetailMatches(matcher, RemoteSource([f1, f2], [x, y]), context, createRef)
         == Returned(Match(map["a" := createRef(x), "b" := createRef(y)]))
      && DetailMatches(matcher, RemoteSource([f1], [x, y]), context, createRef)
         == Returned(NoMatch)
      && DetailMatches(matcher, RemoteSource([f2, f1], [x, y]), context, createRef)
         == Returned(NoMatch)
      && DetailMatches(matcher, RemoteSource([f1, f2], [x]), context, createRef)
         == Thrown(IndexOutOfBounds)
  {
    var matcher := RemoteSourceMatcher([f1, f2], map["a" := 0, "b" := 1]);
    var r := DetailMatches(matcher, RemoteSource([f1, f2], [x, y]), context, createRef);
    var expected := map["a" := createRef(x), "b" := createRef(y)];
    assert IndicesInRange(matcher.outputSymbolAliases, 2);
    assert r.Returned? && r.result.Match?;
    assert r.result.aliases.Keys == expected.Keys;
    assert r.result.aliases == expected;
    assert [f2, f1][0] != [f1, f2][0];
    assert !IndicesInRange(matcher.outputSymbolAliases, 1) by {
      assert "b" in matcher.outputSymbolAliases;
    }
  }
}
