# Remote-source matcher

A model of the plan-testing matcher for remote-source nodes of a distributed
SQL engine's planner. A remote-source node is the edge through which one plan
fragment reads the output of one or more upstream fragments. The matcher is
built from an expected, ordered list of source fragment ids and an alias map
from a local symbol name to a position in the node's output columns. It
matches in two phases:

- the shape check accepts exactly the remote-source nodes;
- the detail check may only be called after the shape check passed. It
  compares the node's fragment list with the expected one, element by element
  and in order. If the lists differ, it returns "no match". If they are equal,
  it binds every alias to a reference to the node's output variable at the
  alias's position. An alias whose position is outside the output list makes
  that lookup throw.

Files:

- `lists.dfy` (module `Lists`): ordered-list equality as `java.util.List.equals`
  defines it, and its agreement with sequence equality.
- `plan.dfy` (module `Plan`): fragment ids, variables, symbol references, the
  32-bit `Int32` index type and plan nodes.
- `remote_source_matcher.dfy` (module `RemoteSourceMatching`): the matcher
  value, the two checks and the lemmas about them.

Modelling choices:

- The matcher's fields are set only by its constructor, so the matcher is an
  immutable datatype value and both checks are functions.
- The `checkState` guard of the detail check is the precondition
  `ShapeMatches(node)`. That guard is a fatal contract check, not a result.
- The `IndexOutOfBoundsException` from the output-list lookup appears in the
  result as `Thrown(IndexOutOfBounds)`.
- The symbol-reference constructor is a function parameter `createRef` that
  the model does not interpret.
- The statistics provider, session, metadata and incoming symbol aliases are
  one type-parameter argument `context`. The model never reads it.
- Alias indices are Java `Integer`s. They are modelled as `Int32`, so negative
  indices are possible, and they throw like indices past the end.

Two consequences of the code:

- An out-of-range alias index is not rejected up front. It is looked up only
  after the fragment lists compared equal (RemoteSourceMatcher.java:57-59), so
  a fragment mismatch gives no match even when an index is out of range.
- The fragment list may be empty. An empty expected list matches a node that
  reads no fragments.

## Model

| member | source | states |
|---|---|---|
| `Lists.ElementwiseEqual` | presto-main/src/test/java/com/facebook/presto/sql/planner/assertions/RemoteSourceMatcher.java:57 | the ordered, element-wise list comparison only holds for lists of equal length |
| `Lists.ElementwiseEqualIsSeqEquality` | presto-main/src/test/java/com/facebook/presto/sql/planner/assertions/RemoteSourceMatcher.java:57 | the element-wise walk over both fragment lists holds exactly when the two lists are equal, in both directions |
| `RemoteSourceMatching.ShapeMatches` | presto-main/src/test/java/com/facebook/presto/sql/planner/assertions/RemoteSourceMatcher.java:47-50 | when the shape check holds, the node is a remote-source node with some fragment list and outputs; when it fails, the node is of another kind |
| `RemoteSourceMatching.BindAliases` | presto-main/src/test/java/com/facebook/presto/sql/planner/assertions/RemoteSourceMatcher.java:58-60 | the value transformation of the alias map keeps exactly its keys and binds each alias to the reference to the output variable at that alias's index; it requires every index to be in range, since the lookup throws otherwise |
| `RemoteSourceMatching.ShapeMatchesExactlyRemoteSources` | presto-main/src/test/java/com/facebook/presto/sql/planner/assertions/RemoteSourceMatcher.java:47-50 | the shape check holds exactly for remote-source nodes, whatever their contents, and fails for every other node kind |
| `RemoteSourceMatching.DetailMatches` | presto-main/src/test/java/com/facebook/presto/sql/planner/assertions/RemoteSourceMatcher.java:53-63 | requires the shape check (the `checkState` guard); "no match" exactly when the fragment lists differ; a throw exactly when they are equal and some alias index is outside the output list; a match exactly when they are equal and every index is in range; a match's aliases have exactly the expected alias keys, and each is bound to the reference to the output variable at its index |
| `RemoteSourceMatching.ReorderedFragmentsDoNotMatch` | presto-main/src/test/java/com/facebook/presto/sql/planner/assertions/RemoteSourceMatcher.java:57-62 | the expected fragment list with two distinct entries swapped gives no match |
| `RemoteSourceMatching.LengthMismatchDoesNotMatch` | presto-main/src/test/java/com/facebook/presto/sql/planner/assertions/RemoteSourceMatcher.java:57-62 | a strict sub-list or super-list of the expected fragments, prefixes included, gives no match |
| `RemoteSourceMatching.ResultIgnoresContext` | presto-main/src/test/java/com/facebook/presto/sql/planner/assertions/RemoteSourceMatcher.java:53-63 | the outcome is the same for any statistics, session, metadata and incoming aliases, so repeated calls on the same node agree |
| `RemoteSourceMatching.TwoFragmentEdge` | presto-main/src/test/java/com/facebook/presto/sql/planner/assertions/RemoteSourceMatcher.java:57-62 | expected [F1, F2] with aliases a -> 0 and b -> 1: node [F1, F2] with two columns binds a to column 0 and b to column 1; node [F1] and node [F2, F1] give no match; node [F1, F2] with one column throws |

## Left out

- Nulls: Dafny values cannot be null, so no null case is modelled. This leaves out the constructor's two null checks; a null node, for which the shape check is false and the detail check fails its state check; null elements in either fragment list, which the list comparison handles; and a null alias index, whose unboxing would fail.
- Aliasing of the matcher's fields: the constructor keeps the caller's fragment list and alias map without copying either. If a caller changed one of them later, the matcher would see the change, and two calls on the same node could then disagree. Modelling the matcher as an immutable value leaves this out; `ResultIgnoresContext` and the immutability above hold only while callers leave both unchanged.
- Which alias is reported when the lookup throws: the exception comes from the first out-of-range alias in the alias map's iteration order, which the code does not fix. `IndexOutOfBounds` therefore names no alias.
- `createSymbolReference`, the `SymbolAliases` builder, `MatchResult` and the plan-node class hierarchy are opaque here. They are not part of this model beyond the behaviour used above.
- The matcher interface and the visitor that calls the shape check before the detail check are not part of this model.
- The configuration bean and the alternative MAX aggregation function in the same repository are not modelled. The first only stores settings. The second's behaviour lives in classes that are not part of this model.
