/**
 The plan-level values the remote-source matcher looks at: fragment
 identifiers, output variables, the symbol references an alias is bound to,
 and plan nodes, of which only the remote-source kind is spelled out.
 */
module Plan {

  /** A Java `int` (and so the value of an unboxed `Integer`). */
  newtype Int32 = x: int | -0x8000_0000 <= x < 0x8000_0000

  /** Identifier of one execution fragment of a distributed plan. */
  datatype FragmentId = FragmentId(id: string)

  /** An output variable of a plan node: its name and its type's name. */
  datatype Variable = Variable(name: string, typeName: string)

  /** An expression that refers to a symbol; what an alias is bound to. */
  datatype SymbolReference = SymbolReference(name: string)

  /** A plan node. A remote-source node reads the output of an ordered,
      possibly empty, list of upstream fragments and exposes that output as its
      ordered list of output variables. Every other node kind is represented
      only by its kind's name, since the matcher never looks inside it. */
  datatype PlanNode =
    | RemoteSource(sourceFragmentIds: seq<FragmentId>, outputVariables: seq<Variable>)
    | OtherNode(kind: string)
}
