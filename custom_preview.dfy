/**
 * The Geometry.CustomPreview node: three number inputs x, y, z and one
 * output, a MyMesh built by MyMesh.Create(x, y, z).
 */
module GeometryCustomPreview {
  import opened Ast
  import opened AstIdentifiers
  import opened NodeModel

  /**
   * Compiles the node. With any of the three inputs unconnected the output
   * is assigned null; otherwise it is assigned the MyMesh.Create call on the
   * three inputs. Compilation never fails: failure is a null output.
   */
  function BuildOutputAst(conn: seq<bool>, inputs: seq<Node>, base: string): (r: seq<Assignment>)
    requires |conn| >= 3
    requires AllConnected(conn, 3) ==> |inputs| >= 3
    ensures |r| == 1 && AssignsOutputsInOrder(r, base, 1)
    ensures r[0].value == NullNode <==> !AllConnected(conn, 3)
  {
    if !conn[0] || !conn[1] || !conn[2] then
      [Assignment(OutId(base, 0), NullNode)]
    else
      [Assignment(OutId(base, 0), FunctionCall(MyMeshCreate, [inputs[0], inputs[1], inputs[2]]))]
  }

  /**
   * A partly wired node compiles to a null output whatever its inputs'
   * AST is: the absent inputs are never read.
   */
  lemma FallbackIgnoresInputs(conn: seq<bool>, inputs: seq<Node>, other: seq<Node>, base: string)
    requires |conn| >= 3 && !AllConnected(conn, 3)
    ensures BuildOutputAst(conn, inputs, base) == BuildOutputAst(conn, other, base)
    ensures BuildOutputAst(conn, inputs, base) == [Assignment(OutId(base, 0), NullNode)]
    ensures IsLiteral(BuildOutputAst(conn, inputs, base)[0].value)
  {
  }

  /** A fully wired node calls MyMesh.Create on inputs 0, 1, 2 in port order. */
  lemma LiveCallsCreateInPortOrder(conn: seq<bool>, inputs: seq<Node>, base: string)
    requires |conn| >= 3 && AllConnected(conn, 3) && |inputs| >= 3
    ensures BuildOutputAst(conn, inputs, base)[0].value == FunctionCall(MyMeshCreate, inputs[..3])
  {
  }
}
