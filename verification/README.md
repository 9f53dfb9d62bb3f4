# A Dafny model of the text-processor dataflow engine

This project models the core of a visual text-processing tool. A **process** is a
dataflow graph of **operations**. Each operation either calls a registered function
(`FunctionOperation`) or runs a nested process (`ProcessOperation`). Operations read their
inputs through **connections**. An `OperationConnection` reads a named output of another
operation. A `ProcessConnection` reads a named external input of the enclosing process.

`Process.run` does four things in turn:
- It records the external inputs and takes the cached execution order, computing it when
  none is cached.
- It clears every listed operation's outputs, then runs each listed operation once, in order.
- It forgets the inputs.
- It reads every output connection.

The model also covers:
- the JSON readers and writers of operations and connections;
- the `trim` text function;
- the pure part of the workspace reducer, which keeps the editor state beside the
  entry process.

The model is functional:
- Operations live in an arena: an insertion-ordered table from operation id to operation
  (`OrderedMaps.OrderedMap`, which behaves like a JavaScript `Map`).
- Connections name their source operation by id.
- The run state is explicit: `currentInputs` on the process and `currentOutputs` on each
  operation.
- Every exception the code throws is a `Failure` carrying an `Error` value. That includes
  what a function's computation throws, which `Env.performRun` returns as a `Failure`.

Where the code applies a JavaScript built-in to an operation's `inputs` or `outputs`,
`SlotAccess` models it for both representations:
- a function operation stores an array of `[name, type]` pairs;
- a process operation exposes its process's `Map`.

The built-ins modelled are `findIndex`, `Object.hasOwn` and indexing.

Modules, one per source component:
- `Model`: the entities.
- `OperationConnections`, `ProcessConnections` and `Connections`: the connections.
- `FunctionOperations` and `ProcessOperations`: the operations.
- `Processes`: `addOperation`, `toJson` and `run`.
- `Trim`: the `trim` function.
- `WorkspaceReducer`: the pure part of the reducer.
- `RunProperties`, `RunDeterminism` and `RunDataflow`: what a run guarantees.
  - A run in a sound order fails only with an error one of its functions throws. What a
    function throws, the run throws.
  - A forward read always fails.
  - The cached order is reused.
  - After a successful run, a second run gives the same outputs.
  - Each function operation ends holding its function's result on what its connections
    deliver, so the outputs are those functions composed along the connections.

Some members are helpers whose meaning is stated by the rows of the members that use
them: `Processes.ExecutionOrder` (by `Processes.Run`), `FunctionOperations.Perform` and
`FunctionOperations.Name` (by `Processes.Perform` and `FunctionOperations.ToJson`), and
`Processes.OperationToJson` (by `Processes.ToJson`).

Facts about the code that a reader might not expect:
- `trim` removes at most one character from each end, because its patterns `^[chars]`
  and `[chars]$` have no repetition. On `"  hi  "` with the set `" "`, the code gives
  `" hi "`. `Trim.TrimText` is the code. `Trim.TrimRuns` is the run-stripping reading
  that the function's name suggests, which gives `"hi"` there (`Trim.TrimRunsExamples`).
  It and the lemmas about it are a reference kept for contrast, not a model of the code.
- The cached order is dropped only by `addOperation`. `disconnect` keeps the cached
  order, and so does `connect`, which is not modelled. `WorkspaceReducer.DisconnectKeepsReady`
  shows that keeping it is harmless for a disconnect. For a connect it is not: a connect
  that wires an operation to one scheduled after it leaves a cached order in which the
  next run fails, as `RunProperties.ForwardReadFails` shows.
- `run` does not check that the inputs it is given match the declared inputs. An input
  missing from the given record reads as `undefined` (`Model.Value.Undefined`). An
  undeclared input that is given is read like a declared one.
- `run` forgets its inputs before it reads the output connections. Output connections only
  read operations, so this changes nothing.

## Model

| member | source | states |
|---|---|---|
| `SlotAccess.HasOwn` | src/models/OperationConnection.ts:42 | `Object.hasOwn` on a `Map` of outputs is always false; on an array it holds only for `"length"` or an index key, which starts with a digit |
| `SlotAccess.FindIndex` | src/models/OperationConnection.ts:15 | `findIndex` on an array gives the first position of the name, or -1; on a `Map` it throws |
| `SlotAccess.At` | src/models/OperationConnection.ts:52 | indexing gives the pair at a valid array index and `undefined` otherwise, always `undefined` on a `Map` |
| `OrderedMaps.IndexOf` | src/models/ProcessConnection.ts:13 | the position of the first occurrence of the key, -1 exactly when it is absent |
| `OrderedMaps.Set` | src/models/Process.ts:32 | `Map.set`: the value is stored under the key; a new key goes last and an existing key keeps its place |
| `OrderedMaps.Delete` | src/services/workspaceReducer.ts:315 | `Map.delete`: the key leaves the table and the key list, the other keys keep their order, and the size drops by one when the key was present |
| `Model.Lookup` | src/models/OperationConnection.ts:62 | reading a record gives the stored value for a present name and `undefined` for a missing one |
| `OperationConnections.New` | src/models/OperationConnection.ts:9-16 | `outputNumber` is the index of the first output with that name, or -1 when there is none; building from a process operation throws |
| `OperationConnections.NewByName` | src/models/OperationConnection.ts:15 | corrected constructor: the position of the output among the output names for both representations, -1 exactly when the name is absent |
| `OperationConnections.FindIndexOnProcessOutputs` | src/models/OperationConnection.ts:15 | counterexample: a connection from a process operation's declared output throws as written; by name, the output is found at index 0 |
| `OperationConnections.StartPosition` | src/models/OperationConnection.ts:20-25 | the start is `outputNumber` cells right of the source, on the source's row |
| `OperationConnections.StartPositionOfDeclaredOutput` | src/models/OperationConnection.ts:15-25 | for the first output named `output`, at index k, the start is k cells right of the source and the value type is that output's type |
| `OperationConnections.ValueType` | src/models/OperationConnection.ts:51-53 | the type paired with output `outputNumber`; throws when that index has no pair |
| `OperationConnections.GetValue` | src/models/OperationConnection.ts:55-63 | throws exactly when the source has no resolved outputs; otherwise gives `currentOutputs[output]` |
| `OperationConnections.ToJson` | src/models/OperationConnection.ts:27-33 | the record is tagged `operation` and carries the source id and the output name |
| `OperationConnections.FromJson` | src/models/OperationConnection.ts:35-47 | as written: an unknown operation id throws; a name failing `hasOwn` throws; otherwise the connection is built as the constructor does |
| `OperationConnections.FromJsonByName` | src/models/OperationConnection.ts:35-47 | corrected: succeeds exactly when the id is known and the output is one of its outputs, giving the connection built by name |
| `OperationConnections.FromJsonThenToJson` | src/models/OperationConnection.ts:27-47 | a record either reader accepts serialises back to the same record |
| `OperationConnections.ToJsonThenFromJsonByName` | src/models/OperationConnection.ts:27-47 | a connection to a declared output, written out and read back by name, is the same connection |
| `OperationConnections.FromJsonRefusesOrdinaryNames` | src/models/OperationConnection.ts:42-44 | as written, every output name that is not `"length"` and does not start with a digit is refused |
| `OperationConnections.HasOwnCounterexample` | src/models/OperationConnection.ts:42-46 | the declared output `result` is refused as written and accepted when read by name; the index key `"0"` is accepted, and its `valueType` throws |
| `ProcessConnections.New` | src/models/ProcessConnection.ts:8-14 | `inputNumber` is the position of the input among the process's input names, or -1 exactly when it is not declared |
| `ProcessConnections.StartPosition` | src/models/ProcessConnection.ts:18-23 | the start is `(inputNumber * gridSize, -gridSize)` |
| `ProcessConnections.ToJson` | src/models/ProcessConnection.ts:25-30 | the record is tagged `process` and carries the input name |
| `ProcessConnections.ValueType` | src/models/ProcessConnection.ts:34-42 | the declared type of the input; throws exactly when the input is not declared |
| `ProcessConnections.GetValue` | src/models/ProcessConnection.ts:44-52 | throws exactly when the process is not mid-run; otherwise gives `currentInputs[input]` |
| `ProcessConnections.DeclaredInputConnection` | src/models/ProcessConnection.ts:13-42 | a connection to the k-th declared input has `inputNumber` k, starts at column k and has that input's type |
| `Connections.Type` | src/models/Connection.ts:10 | every connection's tag is `process` or `operation`, and it is `operation` exactly for operation-sourced ones |
| `Connections.ToJson` | src/models/Connection.ts:8 | a connection's record carries its own tag and is the record of its variant |
| `Connections.FromJson` | src/models/Connection.ts:15-22 | as written: a record tagged `operation` goes to `OperationConnection.fromJson` as written, with its `hasOwn` check; any other tag goes to the process-connection reader; the chosen reader's result or error is passed on unchanged |
| `Connections.FromJsonCorrected` | src/models/Connection.ts:15-22 | corrected: the same dispatch, with operation records read by output name |
| `Connections.OperationConnectionRoundTrip` | src/models/Connection.ts:15-18 | with the corrected reader, an operation-sourced connection to a declared output survives a trip through its record, tag included |
| `Connections.ProcessConnectionRoundTrip` | src/models/Connection.ts:15-22 | a process connection survives a trip through its record under either reader whenever the process-connection reader reads its own record back |
| `Connections.RoundTripRefusedAsWritten` | src/models/Connection.ts:17 | counterexample: as written, a connection to the declared output `result` is refused when read back, where the corrected reader gives it back |
| `FunctionOperations.FilterInput` | src/models/FunctionOperation.ts:59-65 | a parameter gives a slot exactly when it has no config value and its type is neither choice nor toggle; the slot carries the parameter's name and type |
| `FunctionOperations.InputSlotsOf` | src/models/FunctionOperation.ts:19 | every slot comes from a wireable parameter and carries its type, and every wireable parameter gets a slot |
| `FunctionOperations.InputSlotsInDeclarationOrder` | src/models/FunctionOperation.ts:19 | input slots follow the parameters' declaration order |
| `FunctionOperations.OutputSlotsOf` | src/models/FunctionOperation.ts:20 | one `(name, type)` pair per declared output, in order |
| `FunctionOperations.New` | src/models/FunctionOperation.ts:10-21 | the operation keeps its id, position, function and config, has type `function`, no connections and no resolved outputs, and derives its slots from the parameters and outputs |
| `FunctionOperations.NewInputSlots` | src/models/FunctionOperation.ts:59-64 | a name is an input slot of a new operation exactly when it is a parameter with no config value whose type is neither choice nor toggle |
| `FunctionOperations.NewOutputSlots` | src/models/FunctionOperation.ts:20 | a new operation lists every function output as a `(name, type)` pair, in declaration order |
| `FunctionOperations.WithConfig` | src/services/workspaceReducer.ts:241 | applying a config changes the config and nothing else, the input slots included |
| `FunctionOperations.SlotsGoStaleAfterConfigChange` | src/models/FunctionOperation.ts:18-19 | after a config change, a parameter with a config value can still be an input slot: the slots are not those the new config would give |
| `FunctionOperations.ToJson` | src/models/FunctionOperation.ts:35-44 | the record carries the id, position, function id and current config, with one connection record per input connection |
| `FunctionOperations.ToJsonInputsReadBack` | src/models/FunctionOperation.ts:35-44 | each input's connection record, read back by the corrected connection reader against the enclosing process, is the original connection |
| `ProcessOperations.New` | src/models/ProcessOperation.ts:10-22 | the operation has type `process`, and its inputs and outputs are exactly the wrapped process's declared inputs and outputs |
| `ProcessOperations.FromJson` | src/models/ProcessOperation.ts:34-42 | throws exactly when the process id is unknown; otherwise keeps the record's id and position and wraps the looked-up process |
| `ProcessOperations.ToJson` | src/models/ProcessOperation.ts:24-32 | the record names the wrapped process by id, with one connection record per input connection |
| `ProcessOperations.RoundTrip` | src/models/ProcessOperation.ts:24-42 | an unconnected process operation written out and read back against a table holding its process is the same operation |
| `Processes.AddOperation` | src/models/Process.ts:30-33 | the cached order is dropped; the operation is stored under its id, a new id goes last and an existing id keeps its place; nothing else changes |
| `Processes.OperationsToJson` | src/models/Process.ts:24 | one record per operation, in table order |
| `Processes.ToJson` | src/models/Process.ts:18-26 | the record mirrors the inputs, outputs, output connections and operations one for one |
| `Processes.ToJsonListsOperationIds` | src/models/Process.ts:24 | the operation records are listed in table order and carry the operations' ids, one per operation |
| `Processes.ToJsonOutputConnectionsReadBack` | src/models/Process.ts:23 | each output connection's record, read back by output name against the process's operations, is the original connection |
| `Processes.ClearOutputs` | src/models/Process.ts:49-52 | every listed operation loses its outputs, every other operation is untouched, and the shape of the process is kept |
| `Processes.ReadConnection` | src/models/Connection.ts:12 | a connection's value is its variant's `getValue` against the process or the source operation; an unknown source is reported |
| `Processes.ReadInputs` | src/models/Process.ts:60 | the record has one entry per connection read, each the connection's value; it fails when some read fails and succeeds when every read does |
| `Processes.Run` | src/models/Process.ts:41-61 | the order used is the cached one, or the resolver's, which is then cached; after the run no inputs are recorded and the shape is unchanged; the result has exactly the output-connection keys, each that connection's value after the run |
| `Processes.RunOperations` | src/models/Process.ts:54-56 | the loop keeps the shape and changes only operations: the recorded inputs and the cached order stay as they are throughout |
| `Processes.RunOperation` | src/models/Process.ts:54-56 | one step reads the operation's input connections in the current state; a failed read fails the step with that error; otherwise the operation becomes what `perform` makes of the values read, failing as it fails; nothing else changes |
| `Processes.Perform` | src/models/FunctionOperation.ts:46-48 | a function operation's outputs become what `performRun` returns on the inputs read and the operation's own config, and what it throws fails the step with that error; either kind keeps its shape and ends resolved |
| `Processes.ProcessOperationPerformsRun` | src/models/ProcessOperation.ts:44-46 | a process operation's `perform` is its process's `run`: it fails as the nested run fails, else takes its outputs and keeps its state |
| `RunProperties.SecondRunUsesSameOrder` | src/models/Process.ts:44-47 | a successful run caches the order it used, so the next run uses the same order and keeps it |
| `RunProperties.AddOperationInvalidatesOrder` | src/models/Process.ts:30-47 | after `addOperation` the next run asks the resolver again, with the new operation in the table |
| `RunProperties.ForwardReadFails` | src/models/Process.ts:49-56 | outputs are cleared before anything runs: if an operation reads one scheduled at or after it, the run fails, whatever earlier runs left |
| `RunProperties.ForwardReadFailsFrom` | src/models/Process.ts:54-56 | the loop form of the forward-read failure |
| `RunProperties.ReadyRunSucceeds` | src/models/Process.ts:41-61 | when the order is sound, recursively through nested processes, the run either succeeds with every listed operation resolved or fails with an error that a function of the process, or of a nested one, throws |
| `RunProperties.ReadyLoopSucceeds` | src/models/Process.ts:54-56 | the loop form: from a state where earlier steps are resolved and later ones cleared, the loop succeeds with every step resolved or fails with an error a function throws |
| `RunProperties.FinishSucceeds` | src/models/Process.ts:57-61 | once the loop of a run in a sound order has resolved every listed operation, every output connection can be read and the run succeeds with the state the loop left |
| `RunDeterminism.RunKeepsSchedule` | src/models/Process.ts:42-47 | a run keeps the shape and the order every process in it will use next time |
| `RunDeterminism.SameScheduleSameOutputs` | src/models/Process.ts:49-60 | two processes of the same shape and orders, one in a sound order, have the same outcome on the same inputs, whatever outputs earlier runs left in them: both fail with the same error, or both succeed with the same outputs |
| `RunDeterminism.RunIsRepeatable` | src/models/Process.ts:41-61 | determinism: after a successful run in a sound order, running the process again on the same inputs succeeds with the same outputs |
| `RunDataflow.StepThenRead` | src/models/OperationConnection.ts:55-63 | right after a successful function operation's step, its function returned a value, and a connection from it reads that output of what `performRun` returned on the values its connections delivered and its config |
| `RunDataflow.ComputesLoop` | src/models/Process.ts:54-56 | the loop form: each step leaves the operations already run holding their functions' results on values that later steps do not change |
| `RunDataflow.RunComputesEachOperation` | src/models/Process.ts:41-61 | after a successful run in a sound order, every function operation in the order holds its function's result on the values its connections deliver, with the run's inputs |
| `RunDataflow.ChainRunSucceeds` | src/models/Process.ts:41-61 | a chain `x -> f -> g -> y` run on `x = a` succeeds when `f` returns on `{x: a}` and `g` returns on `{in: f's out}` |
| `RunDataflow.ChainScenario` | src/models/Process.ts:41-61 | when `f` returns on `{x: a}` and `g` returns on `{in: f's out}`, a chain `x -> f -> g -> y` run on `x = a` outputs `y` = `g`'s `out` on `f`'s `out` on `a` |
| `RunDataflow.ChainFirstThrows` | src/models/FunctionOperation.ts:46-48 | when `f` throws on `x = a`, running the chain fails with that error |
| `Trim.TrimText` | src/functions/trim.ts:37-57 | an empty set changes nothing; the first character goes exactly when the location is not `end only` and it is in the set; the last of what remains goes exactly when the location is not `start only` and it is in the set; nothing else is removed |
| `Trim.Run` | src/functions/trim.ts:56 | the output record has the single key `result` |
| `Trim.RunOn` | src/functions/trim.ts:37-57 | on a parameter record: a missing `characters` throws; an empty set returns `in` as given, `undefined` included; otherwise a missing `in` throws; with both present the result is the trimmed text, a missing location trimming both ends |
| `Trim.UnwiredInputThrows` | src/functions/trim.ts:38-48 | a `trim` with no `in` throws unless its set is empty, and one with no `characters` throws |
| `Trim.TrimExamples` | src/functions/trim.ts:44-54 | `"  hi  "` trimmed of spaces gives `" hi "` at both ends and `" hi  "` at the start only; an empty set leaves it unchanged |
| `Trim.TrimIsNotIdempotent` | src/functions/trim.ts:48-53 | trimming the trimmed text again removes more |
| `Trim.TrimRuns` | src/functions/trim.ts:44-54 | the run-stripping reading that the name suggests: only set characters are cut, and only from the chosen ends; what remains has no set character at a chosen end, so every run is removed |
| `Trim.TrimRunsExamples` | src/functions/trim.ts:44-54 | under run stripping, `"  hi  "` with a space set gives `"hi"` at both ends and `"hi  "` at the start only |
| `Trim.DropLeadingIdempotent` | src/functions/trim.ts:48 | stripping leading runs twice is stripping them once |
| `Trim.DropTrailingIdempotent` | src/functions/trim.ts:53 | stripping trailing runs twice is stripping them once |
| `WorkspaceReducer.CanRemoveInput` | src/services/workspaceReducer.ts:94-104 | false when the process has at most one input or the input is wired, true otherwise |
| `WorkspaceReducer.CanRemoveOutput` | src/services/workspaceReducer.ts:106-116 | the same rules for outputs |
| `WorkspaceReducer.RefreshInputValues` | src/services/workspaceReducer.ts:118-120 | same names and values, with each flag recomputed against the given process |
| `WorkspaceReducer.RefreshOutputValues` | src/services/workspaceReducer.ts:122-124 | likewise for outputs |
| `WorkspaceReducer.SetInput` | src/services/workspaceReducer.ts:142-150 | the input shows the new value, the others keep theirs, every flag is current, and only the input values and the change time differ |
| `WorkspaceReducer.RemoveInput` | src/services/workspaceReducer.ts:165-177 | the name leaves both the process inputs and the shown values; flags are current for the changed process; nothing else of the process changes, the cached order included |
| `WorkspaceReducer.RemoveOutput` | src/services/workspaceReducer.ts:192-204 | the same for outputs |
| `WorkspaceReducer.OfferedInputRemovalKeepsAnInput` | src/services/workspaceReducer.ts:94-104 | a removal that `canRemoveInput` allows never takes the process's last input |
| `WorkspaceReducer.OfferedOutputRemovalKeepsAnOutput` | src/services/workspaceReducer.ts:106-116 | a removal that `canRemoveOutput` allows never takes the last output |
| `WorkspaceReducer.SetOutputValues` | src/services/workspaceReducer.ts:205-214 | the names shown are the previous ones plus the given ones; given names get their value, names only shown before get `''`; flags are current; nothing else changes |
| `WorkspaceReducer.SetOperationConfigValue` | src/services/workspaceReducer.ts:262-294 | ignored unless the draft is for that operation; with no value, ignored for an unknown parameter or one that cannot be an input, else only that key leaves the draft config; with a value, only that key is set; the process is never touched |
| `WorkspaceReducer.SetThenClearConfigValue` | src/services/workspaceReducer.ts:262-294 | setting a config value and then clearing it leaves the draft config without that key and the process untouched; when the key was absent before, the state is back as it was |
| `WorkspaceReducer.ClearRefusedKeepsValue` | src/services/workspaceReducer.ts:273-278 | clearing a value whose parameter cannot be an input is ignored, so the value just set stays |
| `WorkspaceReducer.Disconnect` | src/services/workspaceReducer.ts:308-324 | an unknown operation leaves the state unchanged; a position with no input slot throws; otherwise only that operation loses that input's connection, and the cached order is kept |
| `WorkspaceReducer.DisconnectKeepsOrderSound` | src/services/workspaceReducer.ts:314-315 | an order that was sound before a disconnect is sound after it |
| `WorkspaceReducer.DisconnectKeepsReady` | src/services/workspaceReducer.ts:308-324 | with an order cached, a process whose orders are sound, recursively through nested processes, still has sound orders after a disconnect, so its next run still fails only with what a function throws |
| `WorkspaceReducer.Load` | src/services/workspaceReducer.ts:130-141 | as written: every input and output is shown empty with no draft; input flags are current, but output flags come from `canRemoveInput` |
| `WorkspaceReducer.LoadCorrected` | src/services/workspaceReducer.ts:130-141 | corrected: the same, with output flags from `canRemoveOutput`, so every flag is current |
| `WorkspaceReducer.LoadOffersRemovingTheLastOutput` | src/services/workspaceReducer.ts:138 | counterexample: with two inputs and one unwired output, the load as written offers to remove the only output, and removing it leaves none |
| `WorkspaceReducer.LoadCorrectedOffersSafeRemoval` | src/services/workspaceReducer.ts:137-138 | after the corrected load, removing any output offered for removal leaves at least one |

## Left out

- The `Operation` base class, `src/models/Operation.ts`, is not part of this model. Its
  `run` is taken to read each input connection in the connections' key order, pass the
  values to `perform`, and store the result as `currentOutputs`. Its
  `clearCurrentOutputs` is taken to set `currentOutputs` to nothing, and `setConfig` to
  replace the config.
- The execution-order resolver `determineOperationExecutionOrder` is not part of this
  model. It is the parameter `Env.resolve`. Topological sorting and cycle detection are
  not modelled. `RunProperties.SoundOrder` states what `run` needs of the order. An id
  the resolver lists but the process does not hold fails the run with
  `UnrecognisedOperation`.
- Function computations (`CodeFunction.performRun`) are not modelled. They are the
  parameter `Env.performRun`, which may fail. Parameter validation and default configs
  are not modelled. How `performRun` builds the parameter record that `Trim.RunOn`
  receives from the inputs and the config is not part of this model.
- `ProcessConnection.fromJson` is not part of this model. It is a parameter of
  `Connections.FromJson` and `Connections.FromJsonCorrected`.
- Several collaborators are parameters (`WorkspaceReducer.Queries`) because they are
  not part of this model: `isInputConnected`, `isOutputConnected` and `canBeInput`.
- The clock (`Date.now()`) is the parameter `now`. The layout constant `gridSize` is a
  parameter of `ProcessConnections.StartPosition`.
- These reducer cases are not modelled: `addInput`, `addOutput`, `setEditOperation`,
  `connect`, `addOperation` and `moveOperation`. They depend on code outside the model:
  `getUniqueName`, `tryConnect`, `propsFromProcess` and `getFunction`.
  `Processes.AddOperation` models the process side of `addOperation`.
- The reducer state leaves out the display props that `propsFromProcess` derives. Of
  the workspace, only the entry process is kept.
- Object identity is not modelled:
  - Connections name their source by id and are read in the enclosing process's table.
    The code holds the source object itself.
  - A nested process is held by value inside its operation. Sharing one process between
    several operations is not modelled.
- `ProcessOperation.toJson` writes the operation's `currentInputs`, a field of the base
  class. That field is taken to be the input connections, as `FunctionOperation.toJson`
  writes them.
- The state left behind by a thrown error is not modelled: a failing run returns only
  the error.
- `trim` models the class `[chars]` as membership in the characters of `characters`. A
  `-` left unescaped could form a range in the real pattern. `escapeRegExp` is not part
  of this model.
- `TrimText` works on Unicode scalar values, which is what a Dafny `char` is. The code's
  patterns have no `u` flag, so they match UTF-16 code units: at an end holding a
  character outside the Basic Multilingual Plane they remove a single surrogate, where
  the model removes the whole character.
- Plain objects (`Values`, `Config`) are modelled as unordered maps, so the key order of
  an object, integer-like keys first, is not modelled.
- `FunctionDef.parameters` and `FunctionDef.outputs` are plain objects in the code. They are
  modelled in insertion order, as `OrderedMap`s. An object lists integer-like names first;
  that is not modelled.
- `filterDefaultInputs` is not modelled: nothing in the modelled code calls it.
- The getters `FunctionOperations.Name`, `symbol` and `parameters` carry no contract
  beyond returning the function's fields.

## Findings

| source | as written | input that shows it | evidently intended | confidence | as-written member | corrected member |
|---|---|---|---|---|---|---|
| src/models/OperationConnection.ts:42 | `Object.hasOwn(from.outputs, output)` tests the outputs array for an index key or `length`, and a `Map` for nothing; `connectionFromJson` passes the refusal on | record `{type: 'operation', from: 'op1', output: 'result'}` where `op1` declares output `result`: refused; output `'0'` is accepted | accept exactly the declared output names | high, not executed | `OperationConnections.FromJson` | `OperationConnections.FromJsonByName` |
| src/models/OperationConnection.ts:15 | `from.outputs.findIndex(...)`; a process operation's outputs are a `Map`, which has no `findIndex` | a connection from output `y` of a process operation whose process declares output `y`: throws | the position of the output among the output names | medium, not executed | `OperationConnections.New` | `OperationConnections.NewByName` |
| src/services/workspaceReducer.ts:138 | output flags computed with `canRemoveInput` | a process with inputs `a`, `b` and the single unwired output `out`: `out` is offered for removal, and removing it leaves no output | `canRemoveOutput` | high, not executed | `WorkspaceReducer.Load` | `WorkspaceReducer.LoadCorrected` |
