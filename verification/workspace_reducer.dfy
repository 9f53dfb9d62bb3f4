/** The pure slice of the workspace reducer: the editor state kept beside the entry
    process, and the actions that edit inputs, outputs, the draft config of the operation
    being edited, and connections. */
module WorkspaceReducer {
  import opened Wrappers
  import opened OrderedMaps
  import opened Model
  import opened SlotAccess
  import opened Processes
  import opened RunProperties

  /** The value shown for one process input or output, and whether the editor offers to
      remove it. */
  datatype ParameterData = ParameterData(value: string, canRemove: bool)

  /** The draft of the operation being edited: a copy of its config that
      `setOperationConfigValue` changes; the operation itself is untouched until editing ends. */
  datatype OperationConfigData = OperationConfigData(
    id: OperationId,
    name: string,
    symbol: string,
    parameters: map<string, ParameterDefinition>,
    config: Config)

  /** The reducer's state, without the display props derived from the process.
      `lastFunctionalChange` holds whatever the clock gave at the last functional change. */
  datatype WorkspaceState = WorkspaceState(
    process: Process,
    lastFunctionalChange: int,
    inputValues: map<string, ParameterData>,
    outputValues: map<string, ParameterData>,
    editOperation: Option<OperationConfigData>)

  /** Queries whose code is outside the model: whether an input or output of the process
      is wired, and whether a parameter's type can be wired at all. */
  datatype Queries = Queries(
    isInputConnected: (Process, string) -> bool,
    isOutputConnected: (Process, string) -> bool,
    canBeInput: ParameterDefinition -> bool)

  // Whether an input or output may be removed

  /** `canRemoveInput`: never the last input, never a wired one. */
  function CanRemoveInput(p: Process, input: string, qs: Queries): (r: bool)
    ensures p.inputs.Size() <= 1 ==> !r
    ensures qs.isInputConnected(p, input) ==> !r
    ensures p.inputs.Size() > 1 && !qs.isInputConnected(p, input) ==> r
  {
    if p.inputs.Size() <= 1 then false
    else if qs.isInputConnected(p, input) then false
    else true
  }

  /** `canRemoveOutput`: never the last output, never a wired one. */
  function CanRemoveOutput(p: Process, output: string, qs: Queries): (r: bool)
    ensures p.outputs.Size() <= 1 ==> !r
    ensures qs.isOutputConnected(p, output) ==> !r
    ensures p.outputs.Size() > 1 && !qs.isOutputConnected(p, output) ==> r
  {
    if p.outputs.Size() <= 1 then false
    else if qs.isOutputConnected(p, output) then false
    else true
  }

  /** Every shown input offers removal exactly when `canRemoveInput` allows it. */
  ghost predicate InputFlagsCurrent(s: WorkspaceState, qs: Queries) {
    forall k :: k in s.inputValues ==> s.inputValues[k].canRemove == CanRemoveInput(s.process, k, qs)
  }

  /** Every shown output offers removal exactly when `canRemoveOutput` allows it. */
  ghost predicate OutputFlagsCurrent(s: WorkspaceState, qs: Queries) {
    forall k :: k in s.outputValues ==> s.outputValues[k].canRemove == CanRemoveOutput(s.process, k, qs)
  }

  /** `refreshInputValues`: the same values, with flags recomputed against `p`. */
  function RefreshInputValues(values: map<string, ParameterData>, p: Process, qs: Queries): (r: map<string, ParameterData>)
    ensures r.Keys == values.Keys
    ensures forall k :: k in r ==> r[k] == ParameterData(values[k].value, CanRemoveInput(p, k, qs))
  {
    map k | k in values :: ParameterData(values[k].value, CanRemoveInput(p, k, qs))
  }

  /** `refreshOutputValues`, likewise. */
  function RefreshOutputValues(values: map<string, ParameterData>, p: Process, qs: Queries): (r: map<string, ParameterData>)
    ensures r.Keys == values.Keys
    ensures forall k :: k in r ==> r[k] == ParameterData(values[k].value, CanRemoveOutput(p, k, qs))
  {
    map k | k in values :: ParameterData(values[k].value, CanRemoveOutput(p, k, qs))
  }

  // The reducer cases

  /** `setInput`: shows `value` for input `name`, refreshes every flag, and records a
      functional change. */
  function SetInput(s: WorkspaceState, name: string, value: string, now: int, qs: Queries): (r: WorkspaceState)
    ensures r.inputValues.Keys == s.inputValues.Keys + {name}
    ensures r.inputValues[name].value == value
    ensures forall k :: k in s.inputValues && k != name ==> r.inputValues[k].value == s.inputValues[k].value
    ensures InputFlagsCurrent(r, qs)
    ensures r.lastFunctionalChange == now
    ensures r.(lastFunctionalChange := s.lastFunctionalChange, inputValues := s.inputValues) == s
  {
    var inputValues := RefreshInputValues(s.inputValues, s.process, qs)[name := ParameterData(value, CanRemoveInput(s.process, name, qs))];
    s.(lastFunctionalChange := now, inputValues := inputValues)
  }

  /** `removeInput`: deletes the input from the process and from the shown values; the
      flags are recomputed after the deletion. Nothing else of the process changes, the
      cached order included. */
  function RemoveInput(s: WorkspaceState, name: string, now: int, qs: Queries): (r: WorkspaceState)
    ensures name !in r.process.inputs.values && name !in r.process.inputs.keys && name !in r.inputValues
    ensures r.process.inputs.values == s.process.inputs.values - {name}
    ensures forall k :: k in r.process.inputs.keys <==> k in s.process.inputs.keys && k != name
    ensures s.process.inputs.Valid() ==> r.process.inputs.Valid()
    ensures r.process.(inputs := s.process.inputs) == s.process
    ensures r.inputValues.Keys == s.inputValues.Keys - {name}
    ensures forall k :: k in r.inputValues ==> r.inputValues[k].value == s.inputValues[k].value
    ensures InputFlagsCurrent(r, qs)
    ensures r.lastFunctionalChange == now
    ensures r.(process := s.process, lastFunctionalChange := s.lastFunctionalChange, inputValues := s.inputValues) == s
  {
    var process := s.process.(inputs := Delete(s.process.inputs, name));
    var inputValues := RefreshInputValues(s.inputValues, process, qs) - {name};
    s.(process := process, lastFunctionalChange := now, inputValues := inputValues)
  }

  /** `removeOutput`, likewise for outputs. */
  function RemoveOutput(s: WorkspaceState, name: string, now: int, qs: Queries): (r: WorkspaceState)
    ensures name !in r.process.outputs.values && name !in r.process.outputs.keys && name !in r.outputValues
    ensures r.process.outputs.values == s.process.outputs.values - {name}
    ensures forall k :: k in r.process.outputs.keys <==> k in s.process.outputs.keys && k != name
    ensures s.process.outputs.Valid() ==> r.process.outputs.Valid()
    ensures r.process.(outputs := s.process.outputs) == s.process
    ensures r.outputValues.Keys == s.outputValues.Keys - {name}
    ensures forall k :: k in r.outputValues ==> r.outputValues[k].value == s.outputValues[k].value
    ensures OutputFlagsCurrent(r, qs)
    ensures r.lastFunctionalChange == now
    ensures r.(process := s.process, lastFunctionalChange := s.lastFunctionalChange, outputValues := s.outputValues) == s
  {
    var process := s.process.(outputs := Delete(s.process.outputs, name));
    var outputValues := RefreshOutputValues(s.outputValues, process, qs) - {name};
    s.(process := process, lastFunctionalChange := now, outputValues := outputValues)
  }

  /** Removal the editor offers never takes a process's last input. */
  lemma OfferedInputRemovalKeepsAnInput(s: WorkspaceState, name: string, now: int, qs: Queries)
    requires s.process.inputs.Valid() && name in s.process.inputs.values
    requires CanRemoveInput(s.process, name, qs)
    ensures RemoveInput(s, name, now, qs).process.inputs.Size() >= 1
  {
    WithoutDistinct(s.process.inputs.keys, name);
  }

  /** Removal the editor offers never takes a process's last output. */
  lemma OfferedOutputRemovalKeepsAnOutput(s: WorkspaceState, name: string, now: int, qs: Queries)
    requires s.process.outputs.Valid() && name in s.process.outputs.values
    requires CanRemoveOutput(s.process, name, qs)
    ensures RemoveOutput(s, name, now, qs).process.outputs.Size() >= 1
  {
    WithoutDistinct(s.process.outputs.keys, name);
  }

  /** `setOutputValues`: shows the run's outputs. Every output shown before stays shown,
      with an empty value when the run gave none; it is not a functional change. */
  function SetOutputValues(s: WorkspaceState, values: map<string, string>, qs: Queries): (r: WorkspaceState)
    ensures r.outputValues.Keys == s.outputValues.Keys + values.Keys
    ensures forall k :: k in values ==> r.outputValues[k].value == values[k]
    ensures forall k :: k in s.outputValues && k !in values ==> r.outputValues[k].value == ""
    ensures OutputFlagsCurrent(r, qs)
    ensures r.(outputValues := s.outputValues) == s
  {
    var previous := map k | k in s.outputValues :: ParameterData("", CanRemoveOutput(s.process, k, qs));
    var given := map k | k in values :: ParameterData(values[k], CanRemoveOutput(s.process, k, qs));
    s.(outputValues := previous + given)
  }

  /** `setOperationConfigValue`: edits one key of the draft config. A value sets the key;
      no value removes it, which turns the parameter back into an input, and is refused
      for an unknown parameter or one that cannot be an input. An action for another
      operation than the one being edited is ignored. */
  function SetOperationConfigValue(
    s: WorkspaceState, operationId: OperationId, key: string, value: Option<string>, now: int, qs: Queries
  ): (r: WorkspaceState)
    ensures s.editOperation.None? || s.editOperation.value.id != operationId ==> r == s
    ensures s.editOperation.Some? && value.None? &&
            (key !in s.editOperation.value.parameters || !qs.canBeInput(s.editOperation.value.parameters[key])) ==>
              r == s
    ensures r != s ==>
              && s.editOperation.Some? && s.editOperation.value.id == operationId
              && r.editOperation.Some?
              && r.editOperation.value.(config := s.editOperation.value.config) == s.editOperation.value
              && r == s.(lastFunctionalChange := now, editOperation := r.editOperation)
              && (forall k :: k != key ==>
                    (k in r.editOperation.value.config <==> k in s.editOperation.value.config) &&
                    (k in s.editOperation.value.config ==> r.editOperation.value.config[k] == s.editOperation.value.config[k]))
    ensures r != s && value.Some? ==> key in r.editOperation.value.config && r.editOperation.value.config[key] == value.value
    ensures r != s && value.None? ==> key !in r.editOperation.value.config
    ensures s.editOperation.Some? && s.editOperation.value.id == operationId && value.Some? ==>
              r.editOperation.Some? && key in r.editOperation.value.config && r.editOperation.value.config[key] == value.value &&
              r.lastFunctionalChange == now
    ensures s.editOperation.Some? && s.editOperation.value.id == operationId && value.None? &&
            key in s.editOperation.value.parameters && qs.canBeInput(s.editOperation.value.parameters[key]) ==>
              r.editOperation.Some? && key !in r.editOperation.value.config && r.lastFunctionalChange == now
    ensures r.process == s.process
  {
    match s.editOperation
    case None => s
    case Some(draft) =>
      if draft.id != operationId then s
      else match value
        case None =>
          if key !in draft.parameters || !qs.canBeInput(draft.parameters[key]) then s
          else s.(lastFunctionalChange := now, editOperation := Some(draft.(config := draft.config - {key})))
        case Some(v) =>
          s.(lastFunctionalChange := now, editOperation := Some(draft.(config := draft.config[key := v])))
  }

  /** Setting a key of the draft config and then clearing it leaves the draft as it was
      without that key; a key that was unset before is back to unset, and the draft is
      exactly where it started. */
  lemma SetThenClearConfigValue(
    s: WorkspaceState, operationId: OperationId, key: string, v: string, t1: int, t2: int, qs: Queries)
    requires s.editOperation.Some? && s.editOperation.value.id == operationId
    requires key in s.editOperation.value.parameters && qs.canBeInput(s.editOperation.value.parameters[key])
    ensures var r := SetOperationConfigValue(SetOperationConfigValue(s, operationId, key, Some(v), t1, qs),
                                             operationId, key, None, t2, qs);
            && r.editOperation == Some(s.editOperation.value.(config := s.editOperation.value.config - {key}))
            && (key !in s.editOperation.value.config ==> r.editOperation == s.editOperation)
            && r.process == s.process && r.lastFunctionalChange == t2
  {
    var draft := s.editOperation.value;
    assert draft.config[key := v] - {key} == draft.config - {key};
    if key !in draft.config {
      assert draft.config - {key} == draft.config;
    }
  }

  /** A parameter that cannot be an input keeps a value once one is set: clearing it is
      refused and changes nothing. */
  lemma ClearRefusedKeepsValue(
    s: WorkspaceState, operationId: OperationId, key: string, v: string, t1: int, t2: int, qs: Queries)
    requires s.editOperation.Some? && s.editOperation.value.id == operationId
    requires key in s.editOperation.value.parameters && !qs.canBeInput(s.editOperation.value.parameters[key])
    ensures var r1 := SetOperationConfigValue(s, operationId, key, Some(v), t1, qs);
            var r2 := SetOperationConfigValue(r1, operationId, key, None, t2, qs);
            && r2 == r1
            && r2.editOperation.Some? && key in r2.editOperation.value.config
            && r2.editOperation.value.config[key] == v
  {
  }

  /** `disconnect`: removes the connection of the operation's input at position `input`.
      An unknown operation leaves the state as it was; a position with no input slot
      (out of range, or any position of a process operation, whose inputs are a map)
      throws, as reading `[0]` of `undefined` does. The cached order is not dropped. */
  function Disconnect(s: WorkspaceState, operation: OperationId, input: int, now: int): (r: Result<WorkspaceState, Error>)
    ensures operation !in s.process.operations.values ==> r == Success(s)
    ensures operation in s.process.operations.values ==>
              (r.Failure? <==> At(s.process.operations.values[operation].Inputs(), input).None?)
    ensures r.Failure? ==> r.error == TypeError
    ensures r.Success? && operation in s.process.operations.values ==>
              var op := s.process.operations.values[operation];
              var name := At(op.Inputs(), input).value.name;
              && r.value.lastFunctionalChange == now
              && r.value.process.sortedOperations == s.process.sortedOperations
              && r.value.process.operations.keys == s.process.operations.keys
              && r.value.process.operations.values.Keys == s.process.operations.values.Keys
              && (forall k :: k in s.process.operations.values && k != operation ==>
                    r.value.process.operations.values[k] == s.process.operations.values[k])
              && r.value.process.operations.values[operation] == op.WithInputConnections(Delete(op.inputConnections, name))
              && name !in r.value.process.operations.values[operation].inputConnections.values
              && r.value.process.(operations := s.process.operations) == s.process
              && r.value.(process := s.process, lastFunctionalChange := s.lastFunctionalChange) == s
  {
    match s.process.operations.Get(operation)
    case None => Success(s)
    case Some(op) =>
      match At(op.Inputs(), input)
      case None => Failure(TypeError)
      case Some(slot) =>
        var op' := op.WithInputConnections(Delete(op.inputConnections, slot.name));
        var operations := OrderedMap(s.process.operations.keys, s.process.operations.values[operation := op']);
        Success(s.(process := s.process.(operations := operations), lastFunctionalChange := now))
  }

  /** Disconnecting only removes a dependency, so an order that was sound before stays
      sound; the stale cache that `disconnect` keeps is harmless. */
  lemma DisconnectKeepsOrderSound(s: WorkspaceState, operation: OperationId, input: int, now: int, order: seq<OperationId>)
    requires SoundOrder(s.process, order)
    requires Disconnect(s, operation, input, now).Success?
    ensures SoundOrder(Disconnect(s, operation, input, now).value.process, order)
  {
    var p := s.process;
    var p' := Disconnect(s, operation, input, now).value.process;
    forall i, name | 0 <= i < |order| && name in p'.operations.values[order[i]].inputConnections.values
      ensures ReadsEarlier(p'.operations.values[order[i]].inputConnections.values[name], order[..i])
    {
      assert name in p.operations.values[order[i]].inputConnections.values;
    }
  }

  /** With an order cached, a process whose orders were sound still has sound orders after
      a disconnect. */
  lemma DisconnectKeepsReady(s: WorkspaceState, operation: OperationId, input: int, now: int, env: Env)
    requires s.process.sortedOperations.Some?
    requires Ready(s.process, env)
    requires Disconnect(s, operation, input, now).Success?
    ensures Ready(Disconnect(s, operation, input, now).value.process, env)
  {
    var p' := Disconnect(s, operation, input, now).value.process;
    DisconnectKeepsOrderSound(s, operation, input, now, ExecutionOrder(s.process, env));
    forall k | k in p'.operations.values && p'.operations.values[k].ProcessOp?
      ensures Ready(p'.operations.values[k].process, env)
    {
      assert p'.operations.values[k].process == s.process.operations.values[k].process;
    }
  }

  // Loading a workspace

  /** `load` as written: every input and output is shown with an empty value, but the
      outputs' flags are computed with `canRemoveInput`. */
  function Load(process: Process, now: int, qs: Queries): (r: WorkspaceState)
    ensures r.process == process && r.lastFunctionalChange == now && r.editOperation.None?
    ensures r.inputValues.Keys == process.inputs.values.Keys
    ensures r.outputValues.Keys == process.outputs.values.Keys
    ensures forall k :: k in r.inputValues ==> r.inputValues[k].value == ""
    ensures forall k :: k in r.outputValues ==> r.outputValues[k] == ParameterData("", CanRemoveInput(process, k, qs))
    ensures InputFlagsCurrent(r, qs)
  {
    WorkspaceState(
      process, now,
      map k | k in process.inputs.values :: ParameterData("", CanRemoveInput(process, k, qs)),
      map k | k in process.outputs.values :: ParameterData("", CanRemoveInput(process, k, qs)),
      None)
  }

  /** `load` as evidently intended: output flags from `canRemoveOutput`, so every flag is
      current from the start. */
  function LoadCorrected(process: Process, now: int, qs: Queries): (r: WorkspaceState)
    ensures r.process == process && r.lastFunctionalChange == now && r.editOperation.None?
    ensures r.inputValues.Keys == process.inputs.values.Keys
    ensures r.outputValues.Keys == process.outputs.values.Keys
    ensures forall k :: k in r.inputValues ==> r.inputValues[k].value == ""
    ensures forall k :: k in r.outputValues ==> r.outputValues[k].value == ""
    ensures InputFlagsCurrent(r, qs) && OutputFlagsCurrent(r, qs)
  {
    WorkspaceState(
      process, now,
      map k | k in process.inputs.values :: ParameterData("", CanRemoveInput(process, k, qs)),
      map k | k in process.outputs.values :: ParameterData("", CanRemoveOutput(process, k, qs)),
      None)
  }

  /** After the corrected load, every output the editor offers to remove can be removed
      without taking the last one. */
  lemma LoadCorrectedOffersSafeRemoval(process: Process, now: int, qs: Queries, name: string)
    requires process.outputs.Valid() && name in process.outputs.values
    requires LoadCorrected(process, now, qs).outputValues[name].canRemove
    ensures RemoveOutput(LoadCorrected(process, now, qs), name, now, qs).process.outputs.Size() >= 1
  {
    OfferedOutputRemovalKeepsAnOutput(LoadCorrected(process, now, qs), name, now, qs);
  }

  /** A process with two inputs and one unwired output: the load as written offers to
      remove the only output, which `canRemoveOutput` refuses; removing it leaves the
      process with no output. */
  lemma LoadOffersRemovingTheLastOutput()
    ensures var qs := Queries((p: Process, n: string) => false, (p: Process, n: string) => false, (d: ParameterDefinition) => true);
            var process := Process("p",
              Empty(),
              OrderedMap(["a", "b"], map["a" := Text, "b" := Text]),
              OrderedMap(["out"], map["out" := Text]),
              Empty(), None, None);
            var s := Load(process, 0, qs);
            && s.outputValues["out"].canRemove
            && !CanRemoveOutput(process, "out", qs)
            && !OutputFlagsCurrent(s, qs)
            && RemoveOutput(s, "out", 0, qs).process.outputs.Size() == 0
  {
  }
}
