/**
 * The Essentials.DataBridge node: three string inputs A, B, C and one
 * output, ConcatenateThree(A, B, C). Besides its output it asks the host to
 * send the evaluated inputs back through the data bridge, where its
 * callback turns them into a message text.
 */
module EssentialsDataBridge {
  import opened Wrappers
  import opened Ast
  import opened AstIdentifiers
  import opened NodeModel
  import opened VmDataBridge

  /**
   * Compiles the node. With any of the three inputs unconnected only the
   * output is assigned, to null. Otherwise the output is assigned the
   * ConcatenateThree call on inputs 0, 1, 2, and the auxiliary identifier is
   * assigned a bridge-send call, keyed by the node's GUID, whose payload is
   * the expression list of all inputs.
   */
  function BuildOutputAst(conn: seq<bool>, inputs: seq<Node>, base: string, guid: string): (r: seq<Assignment>)
    requires |conn| >= 3
    requires AllConnected(conn, 3) ==> |inputs| >= 3
    ensures |r| == if AllConnected(conn, 3) then 2 else 1
    ensures AssignsOutputsInOrder(r, base, 1)
    ensures r[0].value == NullNode <==> !AllConnected(conn, 3)
    ensures AllConnected(conn, 3) ==>
      && r[0].value == FunctionCall(ConcatenateThree, inputs[..3])
      && r[1].target == DummyId(base)
      && SendKey(r[1].value) == Some(guid)
      && SendPayload(r[1].value) == Some(ExprList(inputs))
  {
    if !conn[0] || !conn[1] || !conn[2] then
      [Assignment(OutId(base, 0), NullNode)]
    else
      var functionCall := FunctionCall(ConcatenateThree, [inputs[0], inputs[1], inputs[2]]);
      assert [inputs[0], inputs[1], inputs[2]] == inputs[..3];
      [ Assignment(OutId(base, 0), functionCall),
        Assignment(DummyId(base), GenerateBridgeDataAst(guid, ExprList(inputs))) ]
  }

  /**
   * A partly wired node compiles to a null output, with no bridge-send,
   * whatever its inputs' AST is.
   */
  lemma FallbackIgnoresInputs(conn: seq<bool>, inputs: seq<Node>, other: seq<Node>, base: string, guid: string)
    requires |conn| >= 3 && !AllConnected(conn, 3)
    ensures BuildOutputAst(conn, inputs, base, guid) == BuildOutputAst(conn, other, base, guid)
    ensures BuildOutputAst(conn, inputs, base, guid) == [Assignment(OutId(base, 0), NullNode)]
    ensures SendKeys(BuildOutputAst(conn, inputs, base, guid)) == {}
  {
    var r := BuildOutputAst(conn, inputs, base, guid);
    assert SendKey(r[0].value) == None;
  }

  /**
   * The auxiliary statement never overwrites the output: the two targets
   * differ, whatever the identifier base.
   */
  lemma TargetsDistinct(conn: seq<bool>, inputs: seq<Node>, base: string, guid: string)
    requires |conn| >= 3
    requires AllConnected(conn, 3) ==> |inputs| >= 3
    ensures DistinctTargets(BuildOutputAst(conn, inputs, base, guid))
  {
    DummyIdIsNotOutId(base, base, 0);
  }

  /**
   * A fully wired node sends under exactly one key, its GUID string: the
   * key it registers its callback under when built.
   */
  lemma SendsUnderOwnGuid(conn: seq<bool>, inputs: seq<Node>, base: string, guid: string)
    requires |conn| >= 3 && AllConnected(conn, 3) && |inputs| >= 3
    ensures SendKeys(BuildOutputAst(conn, inputs, base, guid)) == {guid}
  {
    var r := BuildOutputAst(conn, inputs, base, guid);
    assert SendKey(r[0].value) == None;
    assert r[1] in r;
  }

  // ---------------------------------------------------------------------
  // The callback's message text

  /** A runtime value as the callback sees it: null, or an object with its ToString() text. */
  datatype Value = NullValue | Object(text: string)

  /** What reaches the callback: an ArrayList of values, or anything else. */
  datatype CallbackData = ArrayList(items: seq<Value>) | NotAnArrayList

  datatype CallbackError = NullReference

  predicate NoNulls(items: seq<Value>)
  {
    forall k :: 0 <= k < |items| ==> items[k].Object?
  }

  function Texts(items: seq<Value>): (ts: seq<string>)
    requires NoNulls(items)
    ensures |ts| == |items|
    ensures forall k :: 0 <= k < |items| ==> ts[k] == items[k].text
  {
    if items == [] then [] else [items[0].text] + Texts(items[1..])
  }

  /** Each text followed by one space, in order. */
  function Joined(ts: seq<string>): (str: string)
    ensures |str| >= |ts|
    ensures ts != [] ==> str[|str| - 1] == ' '
  {
    if ts == [] then "" else ts[0] + " " + Joined(ts[1..])
  }

  lemma {:induction false} JoinedAppend(a: seq<string>, b: seq<string>)
    ensures Joined(a + b) == Joined(a) + Joined(b)
  {
    if a == [] {
      assert a + b == b;
    } else {
      assert (a + b)[1..] == a[1..] + b;
      JoinedAppend(a[1..], b);
    }
  }

  /** Index of the first space in `s`, or |s| when there is none. */
  function FirstSpace(s: string): (i: nat)
    ensures i <= |s|
    ensures i < |s| ==> s[i] == ' '
    ensures forall k :: 0 <= k < i ==> s[k] != ' '
  {
    if s == [] || s[0] == ' ' then 0 else 1 + FirstSpace(s[1..])
  }

  /** Splits a text at its spaces, each space ending one word. */
  function Words(s: string): seq<string>
    decreases |s|
  {
    if s == [] then []
    else
      var i := FirstSpace(s);
      if i == |s| then [s] else [s[..i]] + Words(s[i + 1..])
  }

  /**
   * The message loses nothing: when no text contains a space, splitting
   * the joined text at its spaces gives back the texts, in order.
   */
  lemma {:induction false} WordsOfJoined(ts: seq<string>)
    requires forall k :: 0 <= k < |ts| ==> ' ' !in ts[k]
    ensures Words(Joined(ts)) == ts
  {
    if ts != [] {
      var s := Joined(ts);
      var rest := Joined(ts[1..]);
      assert s == ts[0] + " " + rest;
      assert s[|ts[0]|] == ' ';
      assert forall k :: 0 <= k < |ts[0]| ==> s[k] == ts[0][k];
      assert FirstSpace(s) == |ts[0]|;
      assert s[..|ts[0]|] == ts[0];
      assert s[|ts[0]| + 1..] == rest;
      WordsOfJoined(ts[1..]);
    }
  }

  /** The text the callback shows: the first five characters of the GUID, then the joined texts. */
  function Message(guid: string, str: string): (msg: string)
    requires |guid| >= 5
    ensures |msg| == 36 + |str|
    ensures msg[29..34] == guid[..5] && msg[36..] == str
  {
    "Data bridge callback of node " + guid[..5] + ": " + str
  }

  // ---------------------------------------------------------------------
  // The node instance and its bridge lifecycle

  /** A registered callback: the DataBridgeCallback method bound to a node instance. */
  datatype Callback = DataBridgeCallbackOf(node: DataBridgeNode)

  class DataBridgeNode {
    /** GUID.ToString() of the node, fixed for its lifetime. */
    const guid: string
    /** The node's AST identifier base. */
    const astIdentifierBase: string

    constructor (guid: string, astIdentifierBase: string)
      ensures this.guid == guid && this.astIdentifierBase == astIdentifierBase
    {
      this.guid := guid;
      this.astIdentifierBase := astIdentifierBase;
    }

    /** Registers this node's callback under its GUID, replacing any earlier entry. */
    method OnBuilt(bridge: Bridge<Callback>)
      modifies bridge
      ensures bridge.callbacks == old(bridge.callbacks)[guid := DataBridgeCallbackOf(this)]
      ensures bridge.Lookup(guid) == Some(DataBridgeCallbackOf(this))
    {
      bridge.RegisterCallback(guid, DataBridgeCallbackOf(this));
    }

    /** Unregisters this node's callback; every other key keeps its entry. */
    method Dispose(bridge: Bridge<Callback>)
      modifies bridge
      ensures bridge.callbacks == old(bridge.callbacks) - {guid}
      ensures bridge.Lookup(guid) == None
      ensures forall k :: k != guid ==> bridge.Lookup(k) == old(bridge.Lookup(k))
    {
      bridge.UnregisterCallback(guid);
    }

    /**
     * The callback: casts the bridged value to an ArrayList and appends each
     * element's text and a space. A value that is not an ArrayList, or a
     * null element, raises a null reference.
     */
    method DataBridgeCallback(data: CallbackData) returns (r: Result<string, CallbackError>)
      requires |guid| >= 5
      ensures data.NotAnArrayList? ==> r == Failure(NullReference)
      ensures data.ArrayList? && !NoNulls(data.items) ==> r == Failure(NullReference)
      ensures data.ArrayList? && NoNulls(data.items) ==>
        r == Success(Message(guid, Joined(Texts(data.items))))
    {
      if data.NotAnArrayList? {
        return Failure(NullReference);
      }
      var inputs := data.items;
      var str := "";
      var i := 0;
      while i < |inputs|
        invariant 0 <= i <= |inputs|
        invariant NoNulls(inputs[..i])
        invariant str == Joined(Texts(inputs[..i]))
      {
        var input := inputs[i];
        if input.NullValue? {
          return Failure(NullReference);
        }
        JoinedAppend(Texts(inputs[..i]), [input.text]);
        assert inputs[..i + 1] == inputs[..i] + [input];
        assert Texts(inputs[..i + 1]) == Texts(inputs[..i]) + [input.text];
        str := str + input.text + " ";
        i := i + 1;
      }
      assert inputs[..i] == inputs;
      r := Success(Message(guid, str));
    }
  }

  /**
   * The host's order of events: the node is built (registering its
   * callback), then compiled. Every key the compiled statements send under
   * reaches this node's callback.
   */
  method BuildThenCompile(node: DataBridgeNode, bridge: Bridge<Callback>, conn: seq<bool>, inputs: seq<Node>)
    returns (r: seq<Assignment>)
    requires |conn| >= 3
    requires AllConnected(conn, 3) ==> |inputs| >= 3
    modifies bridge
    ensures bridge.callbacks == old(bridge.callbacks)[node.guid := DataBridgeCallbackOf(node)]
    ensures r == BuildOutputAst(conn, inputs, node.astIdentifierBase, node.guid)
    ensures forall k :: k in SendKeys(r) ==> bridge.Lookup(k) == Some(DataBridgeCallbackOf(node))
  {
    node.OnBuilt(bridge);
    r := BuildOutputAst(conn, inputs, node.astIdentifierBase, node.guid);
    if AllConnected(conn, 3) {
      SendsUnderOwnGuid(conn, inputs, node.astIdentifierBase, node.guid);
    } else {
      FallbackIgnoresInputs(conn, inputs, inputs, node.astIdentifierBase, node.guid);
    }
  }
}
