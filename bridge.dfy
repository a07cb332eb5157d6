/**
 * The host's data bridge, reduced to what the nodes rely on: a registry
 * from keys (node GUID strings) to callbacks, and the AST of the call that
 * sends a value to the bridge under a key. The registry is an explicit
 * object passed to the node rather than a process-wide singleton.
 */
module VmDataBridge {
  import opened Wrappers
  import opened Ast

  /** The bridge-send call: evaluating it hands the value of `payload` to the callback under `key`. */
  function GenerateBridgeDataAst(key: string, payload: Node): (e: Node)
    ensures SendKey(e) == Some(key) && SendPayload(e) == Some(payload)
  {
    FunctionCall(BridgeData, [StringNode(key), payload])
  }

  /** The key of a bridge-send call, or None for any other node. */
  function SendKey(e: Node): Option<string>
  {
    if e.FunctionCall? && e.fn == BridgeData && |e.args| == 2 && e.args[0].StringNode?
    then Some(e.args[0].s)
    else None
  }

  /** The payload of a bridge-send call, or None for any other node. */
  function SendPayload(e: Node): Option<Node>
  {
    if SendKey(e).Some? then Some(e.args[1]) else None
  }

  /** The keys of all bridge-send calls assigned in a statement list. */
  function SendKeys(stmts: seq<Assignment>): set<string>
  {
    set a | a in stmts && SendKey(a.value).Some? :: SendKey(a.value).value
  }

  /** The registry; `C` is the type of the callbacks it holds. */
  class Bridge<C> {
    var callbacks: map<string, C>

    constructor ()
      ensures callbacks == map[]
    {
      callbacks := map[];
    }

    /** Installs `callback` under `key`; a later registration overwrites an earlier one. */
    method RegisterCallback(key: string, callback: C)
      modifies this
      ensures callbacks == old(callbacks)[key := callback]
    {
      callbacks := callbacks[key := callback];
    }

    /** Removes the entry for `key`; removing an absent key changes nothing. */
    method UnregisterCallback(key: string)
      modifies this
      ensures callbacks == old(callbacks) - {key}
    {
      callbacks := callbacks - {key};
    }

    /** The callback a send under `key` reaches; None means the send is dropped. */
    function Lookup(key: string): (r: Option<C>)
      reads this
      ensures r.Some? <==> key in callbacks
      ensures r.Some? ==> r.value == callbacks[key]
    {
      if key in callbacks then Some(callbacks[key]) else None
    }
  }
}
