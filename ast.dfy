/**
 * The associative AST that a node hands to the host evaluator: the small
 * closed set of node kinds that the three node models build through
 * Dynamo's AST factory (null, integer and string literals, identifiers,
 * function calls and expression lists) and the assignment statement.
 * AST values are immutable and carry no identity beyond their structure.
 */
module Ast {

  /**
   * The functions a call node can refer to. They live in other assemblies
   * (or in the host's bridge) and are referred to by name only.
   */
  datatype FunctionRef =
    | Multiply          // NodeModelsEssentialsFunctions.Multiply
    | Add               // NodeModelsEssentialsFunctions.Add
    | Subtract          // NodeModelsEssentialsFunctions.Subtract
    | Divide            // NodeModelsEssentialsFunctions.Divide
    | ConcatenateThree  // NodeModelsEssentialsFunctions.ConcatenateThree
    | MyMeshCreate      // MyMesh.Create
    | BridgeData        // the data bridge's send function

  /** An expression node of the associative AST. */
  datatype Node =
    | NullNode
    | IntNode(n: int)
    | StringNode(s: string)
    | Identifier(name: string)
    | FunctionCall(fn: FunctionRef, args: seq<Node>)
    | ExprList(items: seq<Node>)

  /** `target = value;` */
  datatype Assignment = Assignment(target: string, value: Node)

  /** A literal needs nothing from the rest of the graph to be evaluated. */
  predicate IsLiteral(e: Node)
  {
    e.NullNode? || e.IntNode? || e.StringNode?
  }

  /** No identifier is assigned twice. */
  predicate DistinctTargets(stmts: seq<Assignment>)
  {
    forall j, k :: 0 <= j < k < |stmts| ==> stmts[j].target != stmts[k].target
  }
}
