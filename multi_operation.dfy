/**
 * The Essentials.MultiOperation node: two number inputs A and B and four
 * outputs, A x B, A + B, A - B and A / B.
 */
module EssentialsMultiOperation {
  import opened Ast
  import opened AstIdentifiers
  import opened NodeModel

  /** The functions behind output ports 0 .. 3. */
  const Operations: seq<FunctionRef> := [Multiply, Add, Subtract, Divide]

  /**
   * Compiles the node. With input A or B unconnected the four outputs are
   * assigned the integers 1, 2, 3, 4; otherwise output k is assigned the
   * k-th operation applied to (A, B).
   */
  function BuildOutputAst(conn: seq<bool>, inputs: seq<Node>, base: string): (r: seq<Assignment>)
    requires |conn| >= 2
    requires AllConnected(conn, 2) ==> |inputs| >= 2
    ensures |r| == |Operations| && AssignsOutputsInOrder(r, base, 4)
    ensures !AllConnected(conn, 2) ==>
      forall k :: 0 <= k < 4 ==> r[k].value == IntNode(k + 1)
    ensures AllConnected(conn, 2) ==>
      forall k :: 0 <= k < 4 ==> r[k].value == FunctionCall(Operations[k], [inputs[0], inputs[1]])
  {
    if !conn[0] || !conn[1] then
      [ Assignment(OutId(base, 0), IntNode(1)),
        Assignment(OutId(base, 1), IntNode(2)),
        Assignment(OutId(base, 2), IntNode(3)),
        Assignment(OutId(base, 3), IntNode(4)) ]
    else
      var multiply := FunctionCall(Multiply, [inputs[0], inputs[1]]);
      var add := FunctionCall(Add, [inputs[0], inputs[1]]);
      var subtract := FunctionCall(Subtract, [inputs[0], inputs[1]]);
      var divide := FunctionCall(Divide, [inputs[0], inputs[1]]);
      [ Assignment(OutId(base, 0), multiply),
        Assignment(OutId(base, 1), add),
        Assignment(OutId(base, 2), subtract),
        Assignment(OutId(base, 3), divide) ]
  }

  /**
   * A partly wired node compiles to the four default literals whatever its
   * inputs' AST is.
   */
  lemma FallbackIgnoresInputs(conn: seq<bool>, inputs: seq<Node>, other: seq<Node>, base: string)
    requires |conn| >= 2 && !AllConnected(conn, 2)
    ensures BuildOutputAst(conn, inputs, base) == BuildOutputAst(conn, other, base)
    ensures forall a :: a in BuildOutputAst(conn, inputs, base) ==> IsLiteral(a.value)
  {
  }

  /** Each of the four outputs is defined exactly once, in every case. */
  lemma OutputsDefinedOnce(conn: seq<bool>, inputs: seq<Node>, base: string)
    requires |conn| >= 2
    requires AllConnected(conn, 2) ==> |inputs| >= 2
    ensures DistinctTargets(BuildOutputAst(conn, inputs, base))
  {
    OutputsAssignedOnce(BuildOutputAst(conn, inputs, base), base, 4);
  }
}
