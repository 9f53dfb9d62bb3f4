/** An operation backed by a registered function (`FunctionOperation`). */
module FunctionOperations {
  import opened Wrappers
  import opened OrderedMaps
  import opened Model
  import Connections
  import OperationConnections
  import ProcessConnections

  /** A parameter becomes an input slot when no config value fixes it and its type can
      be wired (choices and toggles are always configured). */
  predicate IsInputParameter(definition: ParameterDefinition, name: string, config: Config) {
    name !in config && definition.valueType != Choice && definition.valueType != Toggle
  }

  /** `filterInputs`: the `[name, type]` slot of an input parameter, `undefined` otherwise. */
  function FilterInput(definition: ParameterDefinition, name: string, config: Config): (r: Option<Slot>)
    ensures r.Some? <==> IsInputParameter(definition, name, config)
    ensures r.Some? ==> r.value == Slot(name, definition.valueType)
  {
    if name in config || definition.valueType == Choice || definition.valueType == Toggle then None
    else Some(Slot(name, definition.valueType))
  }

  /** `objectToArray(parameters, filterInputs)` over the parameters listed in `names`:
      entries mapped to `undefined` are dropped. */
  function InputSlotsOf(names: seq<string>, definitions: map<string, ParameterDefinition>, config: Config): (r: seq<Slot>)
    ensures |r| <= |names|
    ensures forall i :: 0 <= i < |r| ==>
              && r[i].name in names
              && r[i].name in definitions
              && IsInputParameter(definitions[r[i].name], r[i].name, config)
              && r[i].valueType == definitions[r[i].name].valueType
    ensures forall k :: k in names && k in definitions && IsInputParameter(definitions[k], k, config) ==>
              k in SlotNames(r)
  {
    if |names| == 0 then []
    else
      var rest := InputSlotsOf(names[1..], definitions, config);
      var k := names[0];
      if k !in definitions then rest
      else
        match FilterInput(definitions[k], k, config)
        case Some(slot) => SlotNamesCons(slot, rest); [slot] + rest
        case None => rest
  }

  lemma SlotNamesCons(slot: Slot, rest: seq<Slot>)
    ensures SlotNames([slot] + rest) == [slot.name] + SlotNames(rest)
  {
  }

  /** Slots whose names appear in `names` in strictly increasing positions. */
  ghost predicate InOrder(names: seq<string>, r: seq<Slot>) {
    forall i, j :: 0 <= i < j < |r| ==> IndexOf(names, r[i].name) < IndexOf(names, r[j].name)
  }

  lemma {:induction false} IndexOfTail(names: seq<string>, x: string)
    requires |names| > 0 && x in names[1..] && x != names[0]
    ensures IndexOf(names, x) == IndexOf(names[1..], x) + 1
  {
  }

  lemma {:induction false} InOrderShift(names: seq<string>, r: seq<Slot>)
    requires |names| > 0
    requires forall i :: 0 <= i < |r| ==> r[i].name in names[1..] && r[i].name != names[0]
    requires InOrder(names[1..], r)
    ensures InOrder(names, r)
  {
    forall i, j | 0 <= i < j < |r|
      ensures IndexOf(names, r[i].name) < IndexOf(names, r[j].name)
    {
      IndexOfTail(names, r[i].name);
      IndexOfTail(names, r[j].name);
    }
  }

  lemma {:induction false} InOrderCons(names: seq<string>, slot: Slot, r: seq<Slot>)
    requires |names| > 0 && slot.name == names[0]
    requires forall i :: 0 <= i < |r| ==> r[i].name in names[1..] && r[i].name != names[0]
    requires InOrder(names, r)
    ensures InOrder(names, [slot] + r)
  {
    var r' := [slot] + r;
    forall i, j | 0 <= i < j < |r'|
      ensures IndexOf(names, r'[i].name) < IndexOf(names, r'[j].name)
    {
      assert r'[j] == r[j - 1];
      if i > 0 {
        assert r'[i] == r[i - 1];
      } else {
        assert IndexOf(names, r'[i].name) == 0;
        assert r[j - 1].name in names;
      }
    }
  }

  /** Input slots follow the parameters' declaration order. */
  lemma {:induction false} InputSlotsInDeclarationOrder(names: seq<string>, definitions: map<string, ParameterDefinition>, config: Config)
    requires Distinct(names)
    ensures InOrder(names, InputSlotsOf(names, definitions, config))
  {
    if |names| > 0 {
      var rest := InputSlotsOf(names[1..], definitions, config);
      assert Distinct(names[1..]);
      InputSlotsInDeclarationOrder(names[1..], definitions, config);
      forall i | 0 <= i < |rest|
        ensures rest[i].name in names[1..] && rest[i].name != names[0]
      {
        assert names[0] !in names[1..];
      }
      InOrderShift(names, rest);
      var r := InputSlotsOf(names, definitions, config);
      if r != rest {
        InOrderCons(names, r[0], rest);
      }
    }
  }

  /** `objectToArray(outputs, (type, name) => [name, type])`. */
  function OutputSlotsOf(names: seq<string>, types: map<string, IOType>): (r: seq<Slot>)
    ensures (forall k :: k in names ==> k in types) ==>
              |r| == |names| && forall i :: 0 <= i < |r| ==> r[i] == Slot(names[i], types[names[i]])
  {
    if |names| == 0 then []
    else
      var rest := OutputSlotsOf(names[1..], types);
      if names[0] in types then [Slot(names[0], types[names[0]])] + rest else rest
  }

  /** `new FunctionOperation(id, position, functionToRun, config)`. The input slots are
      derived from the config given here, once. */
  function New(id: OperationId, position: Vector2D, functionToRun: FunctionDef, config: Config): (op: Operation)
    ensures op.FunctionOp? && op.id == id && op.position == position
    ensures op.functionToRun == functionToRun && op.config == config
    ensures op.inputSlots == InputSlotsOf(functionToRun.parameters.keys, functionToRun.parameters.values, config)
    ensures op.outputSlots == OutputSlotsOf(functionToRun.outputs.keys, functionToRun.outputs.values)
    ensures op.inputConnections.values == map[] && op.currentOutputs.None?
    ensures op.Type() == "function"
  {
    FunctionOp(
      id, position, functionToRun, config,
      InputSlotsOf(functionToRun.parameters.keys, functionToRun.parameters.values, config),
      OutputSlotsOf(functionToRun.outputs.keys, functionToRun.outputs.values),
      Empty(), None)
  }

  /** A freshly built operation's inputs are exactly its wireable parameters, with their types. */
  lemma NewInputSlots(id: OperationId, position: Vector2D, functionToRun: FunctionDef, config: Config, name: string)
    requires functionToRun.parameters.Valid()
    ensures var op := New(id, position, functionToRun, config);
            name in SlotNames(op.inputSlots) <==>
              && name in functionToRun.parameters.values
              && IsInputParameter(functionToRun.parameters.values[name], name, config)
  {
    var op := New(id, position, functionToRun, config);
    if name in SlotNames(op.inputSlots) {
      var i :| 0 <= i < |op.inputSlots| && op.inputSlots[i].name == name;
    }
  }

  /** A freshly built operation lists every function output as a `(name, type)` pair, in order. */
  lemma NewOutputSlots(id: OperationId, position: Vector2D, functionToRun: FunctionDef, config: Config)
    requires functionToRun.outputs.Valid()
    ensures var op := New(id, position, functionToRun, config);
            && |op.outputSlots| == functionToRun.outputs.Size()
            && forall i :: 0 <= i < |op.outputSlots| ==>
                 op.outputSlots[i] == Slot(functionToRun.outputs.keys[i], functionToRun.outputs.values[functionToRun.outputs.keys[i]])
  {
  }

  /** The operation's `name` is the function's id. */
  function Name(op: Operation): string
    requires op.FunctionOp?
  {
    op.functionToRun.id
  }

  /** Setting a new config (the editor's `setConfig`) changes the config and nothing else:
      the input slots stay as they were built. */
  function WithConfig(op: Operation, config: Config): (r: Operation)
    requires op.FunctionOp?
    ensures r.FunctionOp? && r.config == config
    ensures r.(config := op.config) == op
  {
    op.(config := config)
  }

  /** Input slots are not recomputed when the config changes: a parameter that gets a
      config value stays an input slot, so it is both fixed and wireable. */
  lemma SlotsGoStaleAfterConfigChange()
    ensures var params := OrderedMap(["characters"], map["characters" := ParameterDefinition(Text, true)]);
            var fn := FunctionDef("trim", "TRM", params, Empty());
            var op := WithConfig(New("op1", Vector2D(0, 0), fn, map[]), map["characters" := " "]);
            && "characters" in SlotNames(op.inputSlots)
            && "characters" in op.config
            && op.inputSlots != InputSlotsOf(params.keys, params.values, op.config)
  {
    var params := OrderedMap(["characters"], map["characters" := ParameterDefinition(Text, true)]);
    assert InputSlotsOf(params.keys, params.values, map[]) == [Slot("characters", Text)];
    assert InputSlotsOf(params.keys, params.values, map["characters" := " "]) == [];
  }

  /** `toJson`: the function id, the current config, and one record per input connection. */
  function ToJson(op: Operation): (j: OperationJson)
    requires op.FunctionOp?
    ensures j.FunctionOperationJson?
    ensures j.id == op.id && j.position == op.position
    ensures j.functionId == op.functionToRun.id && j.config == op.config
    ensures j.inputs.Keys == op.inputConnections.values.Keys
    ensures forall k :: k in j.inputs ==> j.inputs[k] == Connections.ToJson(op.inputConnections.values[k])
  {
    FunctionOperationJson(
      op.id, op.position, op.functionToRun.id, op.config,
      map k | k in op.inputConnections.values :: Connections.ToJson(op.inputConnections.values[k]))
  }

  /** Each input record `toJson` writes reads back, through `connectionFromJson` with the
      corrected operation-connection reader, as the connection it came from: an operation
      connection built by name to a declared output of an operation of the process, or a
      process connection that `ProcessConnection.fromJson` reads back. */
  lemma ToJsonInputsReadBack(
    op: Operation, k: string, process: Process,
    processFromJson: (ConnectionJson, Process) -> Result<ProcessConnection, Error>)
    requires op.FunctionOp? && k in op.inputConnections.values
    requires var c := op.inputConnections.values[k];
             && (c.FromOperation? ==>
                   && c.oc.from in process.operations.values
                   && c.oc == OperationConnections.NewByName(process.operations.values[c.oc.from], c.oc.output)
                   && c.oc.output in Names(process.operations.values[c.oc.from].Outputs()))
             && (c.FromProcess? ==> processFromJson(ProcessConnections.ToJson(c.pc), process) == Success(c.pc))
    ensures k in ToJson(op).inputs
    ensures Connections.FromJsonCorrected(ToJson(op).inputs[k], process, processFromJson) == Success(op.inputConnections.values[k])
  {
    var c := op.inputConnections.values[k];
    if c.FromOperation? {
      Connections.OperationConnectionRoundTrip(c, process, processFromJson);
    } else {
      Connections.ProcessConnectionRoundTrip(c, process, processFromJson);
    }
  }

  /** `perform`: hands the inputs and the operation's own config to the function, and
      passes on what it returns or throws. */
  function Perform(op: Operation, inputs: Values, performRun: (FunctionDef, Values, Config) -> Result<Values, Error>): (r: Result<Values, Error>)
    requires op.FunctionOp?
    ensures r == performRun(op.functionToRun, inputs, op.config)
  {
    performRun(op.functionToRun, inputs, op.config)
  }
}
