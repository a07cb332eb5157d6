/**
 * What the three node models share through Dynamo's NodeModel base class:
 * the connectivity test on input ports and the contract that a compiled
 * node assigns its declared outputs in port order.
 */
module NodeModel {
  import opened Ast
  import opened AstIdentifiers

  /**
   * Input ports 0 .. n-1 each have at least one connector; `conn[i]` is
   * `InPorts[i].Connectors.Any()`.
   */
  predicate AllConnected(conn: seq<bool>, n: nat): (b: bool)
    requires n <= |conn|
    ensures n == 2 ==> (b <==> conn[0] && conn[1])
    ensures n == 3 ==> (b <==> conn[0] && conn[1] && conn[2])
  {
    forall i :: 0 <= i < n ==> conn[i]
  }

  /** The first `n` statements assign output ports 0 .. n-1, in that order. */
  predicate AssignsOutputsInOrder(stmts: seq<Assignment>, base: string, n: nat)
  {
    n <= |stmts| && forall k :: 0 <= k < n ==> stmts[k].target == OutId(base, k)
  }

  /**
   * The statements assign exactly the output ports 0 .. n-1 and nothing
   * else, each once.
   */
  lemma {:induction false} OutputsAssignedOnce(stmts: seq<Assignment>, base: string, n: nat)
    requires |stmts| == n && AssignsOutputsInOrder(stmts, base, n)
    ensures DistinctTargets(stmts)
  {
    forall j, k | 0 <= j < k < |stmts|
      ensures stmts[j].target != stmts[k].target
    {
      OutIdInjective(base, j, base, k);
    }
  }
}
