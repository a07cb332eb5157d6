# NodeModelsEssentials: node compilation and the data bridge, in Dafny

This project models the compilation step of three Dynamo node models from
the NodeModelsEssentials samples: Geometry.CustomPreview,
Essentials.MultiOperation and Essentials.DataBridge. Each node's
`BuildOutputAst` receives the AST bound to its input ports and returns the
assignment statements that define its outputs. The host decides, per input
port, whether a connector is present. A partly wired node must still compile,
to default literals, without reading the AST of its absent inputs. The data
bridge node also emits a bridge-send statement. It registers a callback under
its GUID when built and unregisters it when disposed. The callback turns the
bridged values into a message text.

Modules:

- `Ast` (ast.dfy): the associative AST values (null, integer and string
  literals, identifiers, function calls over function tags, expression
  lists) and assignments.
- `AstIdentifiers` (identifiers.dfy): output identifiers
  `base + "_out" + i` and the auxiliary `base + "_dummy"`, with proofs that
  output identifiers are injective in (base, index) and never equal an
  auxiliary identifier.
- `NodeModel` (node_model.dfy): the connectivity test and the
  "outputs assigned in port order" contract shared by all nodes.
- `GeometryCustomPreview`, `EssentialsMultiOperation`, `EssentialsDataBridge`
  (custom_preview.dfy, multi_operation.dfy, data_bridge.dfy): one module per
  node class. Each node's compile step is a pure function. The data bridge
  node's lifecycle is a class whose `OnBuilt` and `Dispose` update the
  registry. Its callback is a method with a loop, proved against the
  function `Joined`.
- `VmDataBridge` (bridge.dfy): the bridge registry as a class, generic in
  the callback type, holding a `map` from keys to callbacks, and the AST of
  the bridge-send call. The data bridge node registers a callback value that
  holds a reference to the node itself, as the C# delegate is bound to the
  node object.
- `Wrappers` (wrappers.dfy): Option and Result.

The bridge payload is `BuildExprList(inputAstNodes)`: the expression list
of all inputs, in order, not only the first three
(src/Essentials/NodeModelsEssentials/EssentialsDataBridge.cs:107).

## Model

| member | source | states |
|---|---|---|
| AstIdentifiers.OutId | src/Essentials/NodeModelsEssentials/EssentialsMultiOperation.cs:74-77 | an output identifier is the node's identifier base, then `_out`, then only digits |
| AstIdentifiers.DummyId | src/Essentials/NodeModelsEssentials/EssentialsDataBridge.cs:105 | the auxiliary identifier is the identifier base followed by six characters, the last of which is not a digit |
| NodeModel.AllConnected | src/Essentials/NodeModelsEssentials/EssentialsMultiOperation.cs:43 | the gate over the first n ports is exactly the source's test: for two ports `conn[0] && conn[1]`, for three ports `conn[0] && conn[1] && conn[2]` (also GeometryCustomPreview.cs:120 and EssentialsDataBridge.cs:91) |
| AstIdentifiers.NatToStringInjective | src/Essentials/NodeModelsEssentials/EssentialsMultiOperation.cs:74-77 | distinct output indices have distinct decimal texts |
| AstIdentifiers.OutIdInjective | src/Essentials/NodeModelsEssentials/EssentialsMultiOperation.cs:74-77 | an output identifier determines both the identifier base and the output index, so distinct nodes never collide and the outputs of one node are distinct |
| AstIdentifiers.DummyIdIsNotOutId | src/Essentials/NodeModelsEssentials/EssentialsDataBridge.cs:103-105 | the `_dummy` identifier differs from every output identifier of every node |
| NodeModel.OutputsAssignedOnce | src/Essentials/NodeModelsEssentials/EssentialsMultiOperation.cs:73-78 | a statement list that assigns outputs 0..n-1 in order assigns no identifier twice |
| GeometryCustomPreview.BuildOutputAst | src/Essentials/NodeModelsEssentials/GeometryCustomPreview.cs:107-137 | total for every connectivity pattern; always exactly one statement, to output 0; that statement's value is null exactly when one of inputs 0, 1, 2 is unconnected |
| GeometryCustomPreview.FallbackIgnoresInputs | src/Essentials/NodeModelsEssentials/GeometryCustomPreview.cs:120-123 | with any of inputs 0..2 unconnected the result is `[output 0 := null]`, a literal, and is the same whatever AST the inputs carry |
| GeometryCustomPreview.LiveCallsCreateInPortOrder | src/Essentials/NodeModelsEssentials/GeometryCustomPreview.cs:129-136 | with all three inputs connected, output 0 is assigned MyMesh.Create applied to inputs 0, 1, 2 in port order |
| EssentialsMultiOperation.BuildOutputAst | src/Essentials/NodeModelsEssentials/EssentialsMultiOperation.cs:41-79 | always four statements, to outputs 0..3 in order; unconnected A or B gives the integers 1, 2, 3, 4; otherwise output k is Multiply, Add, Subtract, Divide (k = 0..3) applied to (A, B) in that order |
| EssentialsMultiOperation.FallbackIgnoresInputs | src/Essentials/NodeModelsEssentials/EssentialsMultiOperation.cs:43-51 | the default statements are all literals and do not depend on the inputs' AST |
| EssentialsMultiOperation.OutputsDefinedOnce | src/Essentials/NodeModelsEssentials/EssentialsMultiOperation.cs:73-78 | in every connectivity pattern the four targets are pairwise distinct |
| VmDataBridge.GenerateBridgeDataAst | src/Essentials/NodeModelsEssentials/EssentialsDataBridge.cs:107 | the bridge-send call carries its key and its payload so that both can be read back unchanged |
| VmDataBridge.Bridge.RegisterCallback | src/Essentials/NodeModelsEssentials/EssentialsDataBridge.cs:56 | the key maps to the new callback (a later registration overwrites); every other entry is unchanged |
| VmDataBridge.Bridge.UnregisterCallback | src/Essentials/NodeModelsEssentials/EssentialsDataBridge.cs:65 | the key is removed, removing an absent key changes nothing, every other entry is unchanged |
| EssentialsDataBridge.BuildOutputAst | src/Essentials/NodeModelsEssentials/EssentialsDataBridge.cs:89-112 | one statement (output 0 := null) when any of inputs 0..2 is unconnected, else two: output 0 := ConcatenateThree(inputs 0..2), then `_dummy` := a bridge-send keyed by the GUID whose payload is the expression list of all inputs in order |
| EssentialsDataBridge.FallbackIgnoresInputs | src/Essentials/NodeModelsEssentials/EssentialsDataBridge.cs:91-95 | a partly wired node gives `[output 0 := null]` with no bridge-send, whatever the inputs' AST |
| EssentialsDataBridge.TargetsDistinct | src/Essentials/NodeModelsEssentials/EssentialsDataBridge.cs:101-111 | the output and the auxiliary statement never assign the same identifier |
| EssentialsDataBridge.SendsUnderOwnGuid | src/Essentials/NodeModelsEssentials/EssentialsDataBridge.cs:104-107 | a fully wired node sends under exactly one key, its GUID string, the key it registers under |
| EssentialsDataBridge.Joined | src/Essentials/NodeModelsEssentials/EssentialsDataBridge.cs:78-81 | the built text is at least one character per input and, when there are inputs, ends in a space |
| EssentialsDataBridge.JoinedAppend | src/Essentials/NodeModelsEssentials/EssentialsDataBridge.cs:78-81 | building the text over a concatenation of inputs is building it over each part and concatenating |
| EssentialsDataBridge.WordsOfJoined | src/Essentials/NodeModelsEssentials/EssentialsDataBridge.cs:76-81 | when no input text holds a space, splitting the built text at spaces gives back the input texts in order |
| EssentialsDataBridge.Message | src/Essentials/NodeModelsEssentials/EssentialsDataBridge.cs:82 | the message is a fixed 36-character lead-in carrying the GUID's first five characters at positions 29..33, followed by the built text unchanged |
| VmDataBridge.Bridge.Lookup | src/Essentials/NodeModelsEssentials/EssentialsDataBridge.cs:107 | a send under a key reaches a callback exactly when the key is registered, and then the callback registered under it |
| EssentialsDataBridge.DataBridgeNode.OnBuilt | src/Essentials/NodeModelsEssentials/EssentialsDataBridge.cs:53-57 | afterwards the registry maps the node's GUID to the callback bound to this node object; other keys unchanged |
| EssentialsDataBridge.DataBridgeNode.Dispose | src/Essentials/NodeModelsEssentials/EssentialsDataBridge.cs:62-66 | afterwards the GUID is absent (a send under it is dropped) and every other key maps as before |
| EssentialsDataBridge.DataBridgeNode.DataBridgeCallback | src/Essentials/NodeModelsEssentials/EssentialsDataBridge.cs:74-83 | a value that is not an ArrayList, or one holding a null element, raises a null reference; otherwise the message is the first five GUID characters followed by each element's text and one space, in order |
| EssentialsDataBridge.BuildThenCompile | src/Essentials/NodeModelsEssentials/EssentialsDataBridge.cs:53-57 | the registry afterwards is the old one with only the node's GUID mapped to the callback bound to this node object, and every key the compiled statements send under reaches that callback |

## Left out

- Dynamo's `AstFactory` and `GetAstIdentifierForOutputIndex` are not part of this model. AST nodes are datatype constructors. The output identifier is `base + "_out" + index`, so the shortcut Dynamo may take for single-output nodes (naming the output after the preview identifier) is not modelled.
- The relation between a node's GUID and its AST identifier base is not modelled: both are independent parameters.
- `Multiply`, `Add`, `Subtract`, `Divide`, `ConcatenateThree` and `MyMesh.Create` are function tags inside call nodes. Their double-precision arithmetic, string and geometry behaviour is outside the model.
- The model does not cover the internals of `VMDataBridge.DataBridge`: its process-wide singleton, thread-safe dispatch, and how the host evaluates the bridge-send call and invokes the callback. The registry is a sequential map and `Bridge.Lookup` says which callback a send would reach; the callback is not invoked by the model.
- `base.OnBuilt()` and `base.Dispose()` of Dynamo's NodeModel are not part of this model.
- `MessageBox.Show` is a UI side effect. The callback method returns the message text it would show.
- `ToString()` of the bridged runtime objects is foreign code. Each non-null element is given with its text.
- EssentialsDataBridge.DataBridgeNode.DataBridgeCallback: requires a GUID text of at least five characters, because `Substring(0,5)` throws on a shorter one. `Guid.ToString()` is always 36 characters, so the source never hits that case.
- GeometryCustomPreview.BuildOutputAst: requires a connectivity entry for each of the three ports it tests, and on the connected branch an input AST for each port it reads. The host supplies one of each per declared port.
- EssentialsMultiOperation.BuildOutputAst: requires the same for its two ports.
- EssentialsDataBridge.BuildOutputAst: requires the same for its three ports.
- JSON constructors, `RegisterAllPorts`, the port name, type and description attributes, argument lacing and serialisation are declarative metadata. This includes `OutPortTypes` on MultiOperation listing two types for four outputs.
